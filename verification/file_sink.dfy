/** The file sink: at construction it opens `file_path + file_name`,
    truncating or appending; its write primitive appends the line and a
    newline when the file is open and does nothing otherwise. The file is
    its content as a string; whether the open succeeded and what the file
    held before are parameters. */
module FileSinks {

  /** The path opened, whether the open succeeded, and the file's content. */
  datatype FileSink = FileSink(path: string, isOpen: bool, content: string)

  /** The directory prefix used when the caller gives none. */
  const DefaultFilePath: string := ""

  /** Whether the file is truncated when the caller does not say. */
  const DefaultOverwrite: bool := false

  /** Opens `filePath + fileName`: truncating when `overwrite`, appending
      otherwise. `existing` is what the file held before and `openOk` says
      whether the open succeeded; a failed open leaves the file as it was
      and the sink closed. */
  function OpenFile(fileName: string, filePath: string, overwrite: bool, existing: string, openOk: bool): (f: FileSink)
    ensures f.path == filePath + fileName
    ensures f.isOpen == openOk
    ensures openOk && overwrite ==> f.content == ""
    ensures !(openOk && overwrite) ==> f.content == existing
  {
    var complete := filePath + fileName;
    if overwrite then FileSink(complete, openOk, if openOk then "" else existing)
    else FileSink(complete, openOk, existing)
  }

  /** The constructor with the defaulted arguments left out: no path prefix, append mode. */
  function OpenFileWithDefaults(fileName: string, existing: string, openOk: bool): (f: FileSink)
    ensures f.path == fileName
    ensures f.content == existing
  {
    OpenFile(fileName, DefaultFilePath, DefaultOverwrite, existing, openOk)
  }

  /** The write primitive: appends the message and a newline when open; otherwise the file is unchanged. */
  function Log(f: FileSink, message: string): (r: FileSink)
    ensures r.path == f.path && r.isOpen == f.isOpen
    ensures f.isOpen ==> r.content == f.content + message + "\n"
    ensures !f.isOpen ==> r == f
  {
    if f.isOpen then f.(content := f.content + (message + "\n")) else f
  }

  /** Writes messages one after another. */
  function LogAll(f: FileSink, messages: seq<string>): FileSink
    decreases |messages|
  {
    if |messages| == 0 then f else LogAll(Log(f, messages[0]), messages[1..])
  }

  /** The text a run of writes adds: each message followed by a newline. */
  function Lines(messages: seq<string>): string
    decreases |messages|
  {
    if |messages| == 0 then "" else messages[0] + "\n" + Lines(messages[1..])
  }

  /** After writes m1..mk to an open file its content is the initial content
      followed by m1 + "\n" ... mk + "\n"; a closed file is never changed. */
  lemma {:induction false} LogAllAppendsLines(f: FileSink, messages: seq<string>)
    ensures f.isOpen ==> LogAll(f, messages) == f.(content := f.content + Lines(messages))
    ensures !f.isOpen ==> LogAll(f, messages) == f
    decreases |messages|
  {
    if |messages| > 0 {
      var g := Log(f, messages[0]);
      LogAllAppendsLines(g, messages[1..]);
      if f.isOpen {
        assert f.content + Lines(messages) == g.content + Lines(messages[1..]);
      }
    }
  }

  /** Opening in truncate mode and writing "hello" leaves exactly "hello\n". */
  lemma OverwriteExample(fileName: string, filePath: string, existing: string)
    ensures Log(OpenFile(fileName, filePath, true, existing, true), "hello").content == "hello\n"
  {
  }

  /** Writing "a" through one sink and "b" through a second sink opened in
      append mode on the same file leaves "a\nb\n". */
  lemma AppendAcrossInstancesExample(fileName: string)
    ensures var first := Log(OpenFileWithDefaults(fileName, "", true), "a");
      Log(OpenFileWithDefaults(fileName, first.content, true), "b").content == "a\nb\n"
    ensures LogAll(OpenFileWithDefaults(fileName, "", true), ["a", "b"]).content == "a\nb\n"
  {
    LogAllAppendsLines(OpenFileWithDefaults(fileName, "", true), ["a", "b"]);
    assert ["a", "b"][1..] == ["b"];
    assert ["b"][1..] == [];
  }
}
