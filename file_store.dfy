/** The tile cache and the sidecar files as a store from path to file contents. */
module FileStore {
  import opened Wrappers
  import opened Strings

  class Store {
    /** The files that exist, by path, with their bytes; two paths name one file only when they are equal strings. */
    var files: map<string, seq<byte>>

    constructor (initial: map<string, seq<byte>>)
      ensures files == initial
    {
      files := initial;
    }

    /** `Utilities.LoadFile`: the stored bytes when the path exists, null otherwise. */
    function LoadFile(path: string): (r: Option<seq<byte>>)
      reads this
      ensures r.Some? <==> path in files
      ensures r.Some? ==> r.value == files[path]
    {
      if path in files then Some(files[path]) else None
    }

    /**
     * `Utilities.LoadText`: the stored contents read as text when the path exists, null otherwise.
     * `decode` is `File.ReadAllText`'s encoding detection, which is not part of this model.
     */
    function LoadText(path: string, decode: seq<byte> -> string): (r: Option<string>)
      reads this
      ensures r.Some? <==> path in files
      ensures r.Some? ==> r.value == decode(files[path])
    {
      match LoadFile(path)
      case Some(data) => Some(decode(data))
      case None => None
    }

    /** `Utilities.SaveFile`: creates or overwrites one file and leaves every other path alone. */
    method SaveFile(path: string, data: seq<byte>)
      modifies this
      ensures files == old(files)[path := data]
      ensures LoadFile(path) == Some(data)
      ensures forall p :: p != path ==> LoadFile(p) == old(LoadFile(p))
    {
      files := files[path := data];
    }
  }
}
