/**
 * A multipart `FormData` body as the ordered list of its entries. A file the
 * browser hands over is opaque: only its name is kept.
 */
module FormData {

  datatype File = File(name: string)

  datatype Value = Text(text: string) | Blob(file: File)

  datatype Entry = Entry(key: string, value: Value)

  /** The entry keys in append order. */
  function Keys(fd: seq<Entry>): (ks: seq<string>)
    ensures |ks| == |fd| && forall i :: 0 <= i < |fd| ==> ks[i] == fd[i].key
  {
    if fd == [] then [] else [fd[0].key] + Keys(fd[1..])
  }

  /** One entry per file under the same key, in file order. */
  function FileEntries(key: string, files: seq<File>): seq<Entry> {
    seq(|files|, i requires 0 <= i < |files| => Entry(key, Blob(files[i])))
  }

  /**
   * `files.forEach(f => formData.append(key, f))`: one entry per file, in
   * order, after the entries already there.
   */
  method AppendFiles(fd: seq<Entry>, key: string, files: seq<File>) returns (r: seq<Entry>)
    ensures r == fd + FileEntries(key, files)
    ensures |r| == |fd| + |files| && r[..|fd|] == fd
    ensures forall i :: 0 <= i < |files| ==> r[|fd| + i] == Entry(key, Blob(files[i]))
  {
    r := fd;
    var i := 0;
    while i < |files|
      invariant 0 <= i <= |files|
      invariant r == fd + FileEntries(key, files[..i])
    {
      assert FileEntries(key, files[..i + 1]) == FileEntries(key, files[..i]) + [Entry(key, Blob(files[i]))];
      r := r + [Entry(key, Blob(files[i]))];
      i := i + 1;
    }
    assert files[..i] == files;
  }
}
