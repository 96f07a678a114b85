/** The node's file system as the installer sees it from inside its container (host
    directories are mounted under `/host/`). Paths are compared as strings; file contents are
    strings standing for their bytes. */
module FileSystem {
  import opened Wrappers

  /** What the host holds besides file contents: its directories, and the errors the operating
      system gives, by path, for files that cannot be read or written. */
  datatype Host = Host(dirs: set<string>, unreadable: map<string, string>, unwritable: map<string, string>)

  /** `os.Stat(path)` finds a file or a directory; any other path does not exist. */
  predicate Exists(files: map<string, string>, host: Host, path: string)
  {
    path in files || path in host.dirs
  }

  /** The error `os.Stat` gives for a missing path. */
  function StatNotExist(path: string): string
  {
    "stat " + path + ": no such file or directory"
  }

  /** `os.ReadFile`. */
  function ReadResult(files: map<string, string>, host: Host, path: string): (r: Result<string, string>)
    ensures r.Success? <==> path in files && path !in host.unreadable && path !in host.dirs
    ensures r.Success? ==> r.value == files[path]
    ensures !Exists(files, host, path) && path !in host.unreadable ==> r == Failure("open " + path + ": no such file or directory")
  {
    if path in host.unreadable then Failure(host.unreadable[path])
    else if path in host.dirs then Failure("read " + path + ": is a directory")
    else if path !in files then Failure("open " + path + ": no such file or directory")
    else Success(files[path])
  }

  /** `os.WriteFile`: the file state after creating or truncating `path` and writing `data`. */
  function WriteResult(files: map<string, string>, host: Host, path: string, data: string): (r: Result<map<string, string>, string>)
    ensures r.Success? <==> path !in host.unwritable && path !in host.dirs
    ensures r.Success? ==> r.value.Keys == files.Keys + {path} && r.value[path] == data
    ensures r.Success? ==> forall p :: p in files && p != path ==> p in r.value && r.value[p] == files[p]
  {
    if path in host.unwritable then Failure(host.unwritable[path])
    else if path in host.dirs then Failure("open " + path + ": is a directory")
    else Success(files[path := data])
  }

  /** The file system as one mutable object: the installer's steps read and replace its files. */
  class HostFs {
    var files: map<string, string>
    const host: Host

    constructor (files: map<string, string>, host: Host)
      ensures this.files == files && this.host == host
    {
      this.files := files;
      this.host := host;
    }

    predicate Stat(path: string)
      reads this
    {
      Exists(files, host, path)
    }

    function ReadFile(path: string): Result<string, string>
      reads this
    {
      ReadResult(files, host, path)
    }

    method WriteFile(path: string, data: string) returns (err: Option<string>)
      modifies this
      ensures var w := WriteResult(old(files), host, path, data);
        if w.Success? then err.None? && files == w.value else err == Some(w.error) && files == old(files)
    {
      var w := WriteResult(files, host, path, data);
      if w.Failure? {
        return Some(w.error);
      }
      files := w.value;
      return None;
    }
  }
}
