/**
  The generator's configuration record (prefix `postman.collection.generator`)
  with the default of every setting, and the composition of the output path.
  The Java setters only ever replace a value, so the record is immutable here
  and a different configuration is a different value.
 */
module CollectionProperties {
  import opened JavaStrings

  /** Where the collection file is written. */
  datatype Output = Output(directory: string, filename: string)

  /** The collection's display name and schema identifier. */
  datatype Collection = Collection(name: string, schema: string)

  /** The header injected into every request when `enabled` is set. */
  datatype Authorization = Authorization(
    enabled: bool,
    headerName: string,
    headerValue: string,
    headerType: string)

  datatype Properties = Properties(
    enabled: bool,
    output: Output,
    collection: Collection,
    authorization: Authorization,
    baseUrl: string)

  const DefaultSchema: string := "https://schema.getpostman.com/json/collection/v2.0.0/collection.json"

  const DefaultOutput: Output := Output("./", "collection.json")

  const DefaultCollection: Collection := Collection("API Collection", DefaultSchema)

  const DefaultAuthorization: Authorization :=
    Authorization(true, "Authorization", "{{logintoken}}", "text")

  /** The configuration with no property set. */
  const DefaultProperties: Properties :=
    Properties(true, DefaultOutput, DefaultCollection, DefaultAuthorization, "")

  /** The directory with a '/' appended unless it already ends with one. */
  function SeparatedDirectory(directory: string): (dir: string)
    ensures EndsWith(dir, "/")
    ensures |dir| >= |directory| && dir[..|directory|] == directory
    ensures |dir| == |directory| <==> EndsWith(directory, "/")
    ensures EndsWith(directory, "/") ==> dir == directory
    ensures !EndsWith(directory, "/") ==> dir == directory + "/"
  {
    if EndsWith(directory, "/") then directory else directory + "/"
  }

  /** `Output.getFullPath`: the file name placed inside the directory. The
      result ends with the file name, preceded by '/'; it starts with the
      directory unchanged, and a '/' is inserted only when the directory
      does not already end with one (existing separators are kept). */
  function FullPath(output: Output): (path: string)
    ensures EndsWith(path, output.filename)
    ensures |path| > |output.filename| && path[|path| - |output.filename| - 1] == '/'
    ensures |path| >= |output.directory| && path[..|output.directory|] == output.directory
    ensures EndsWith(output.directory, "/") ==> |path| == |output.directory| + |output.filename|
    ensures !EndsWith(output.directory, "/") ==> |path| == |output.directory| + 1 + |output.filename|
  {
    var dir := SeparatedDirectory(output.directory);
    assert (dir + output.filename)[..|dir|] == dir;
    assert (dir + output.filename)[|dir| - 1] == dir[|dir| - 1];
    dir + output.filename
  }

  /** The directory and file name can be read back from the full path: the
      file name is its tail, and what precedes it is the directory with its
      separator. */
  lemma {:induction false} FullPathSplits(output: Output)
    ensures var path := FullPath(output);
      && path[|path| - |output.filename|..] == output.filename
      && path[..|path| - |output.filename|] == SeparatedDirectory(output.directory)
  {
    var path := FullPath(output);
    var dir := SeparatedDirectory(output.directory);
    assert path == dir + output.filename;
    assert |path| - |output.filename| == |dir|;
  }

  /** With every setting at its default, the file is "./collection.json". */
  lemma DefaultFullPath()
    ensures FullPath(DefaultProperties.output) == "./collection.json"
  {
    assert EndsWith("./", "/");
  }
}
