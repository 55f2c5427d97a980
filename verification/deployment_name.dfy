/** `_prepareDeploymentName` of app/lib/zeebe-api/zeebe-api.js: the engine
    expects a deployment name with the suffix of its diagram kind. */
module DeploymentName {
  import opened Wrappers
  import opened Strings
  import opened JsObjects
  import Paths

  const DefaultFileType := "bpmn"

  /** `.${fileType}`, the file type defaulting to "bpmn" when not given. */
  function Extension(fileType: Option<string>): (r: string)
    ensures |r| > 0 && r[0] == '.'
    ensures fileType.None? ==> r == ".bpmn"
  {
    "." + fileType.GetOr(DefaultFileType)
  }

  /** The name the deployment is registered under. `name` and `filePath` are
      optional as in the source. An empty name is replaced by the file's base
      name without its extension; a name without the suffix gets it appended;
      a name with it is kept. When the name is empty and there is no file path
      to derive one from, Node's `path.basename` throws, the error is logged,
      and the name is returned as it came. */
  function PrepareDeploymentName(name: Option<string>, filePath: Option<string>, fileType: Option<string>)
    : (r: Option<string>)
    ensures Truthy(name) && EndsWith(name.value, Extension(fileType)) ==> r == name
    ensures Truthy(name) && !EndsWith(name.value, Extension(fileType)) ==> r == Some(name.value + Extension(fileType))
    ensures !Truthy(name) && filePath.Some? ==> r == Some(Paths.Stem(filePath.value) + Extension(fileType))
    ensures !Truthy(name) && filePath.None? ==> r == name
    ensures Truthy(name) || filePath.Some? ==> r.Some? && EndsWith(r.value, Extension(fileType))
  {
    var extension := Extension(fileType);
    if !Truthy(name) then
      match filePath
      case None => name
      case Some(path) =>
        EndsWithAppended(Paths.Stem(path), extension);
        Some(Paths.Stem(path) + extension)
    else if !EndsWith(name.value, extension) then
      EndsWithAppended(name.value, extension);
      Some(name.value + extension)
    else name
  }

  /** Preparing a prepared name changes nothing. */
  lemma PrepareIsIdempotent(name: Option<string>, filePath: Option<string>, fileType: Option<string>)
    ensures var once := PrepareDeploymentName(name, filePath, fileType);
      PrepareDeploymentName(once, filePath, fileType) == once
  {
  }

  /** A caller's non-empty name is never altered, only extended. */
  lemma PreparePreservesGivenName(name: string, filePath: Option<string>, fileType: Option<string>)
    requires name != ""
    ensures var r := PrepareDeploymentName(Some(name), filePath, fileType);
      r.Some? && StartsWith(r.value, name)
  {
  }

  /** Without a name, the file "foo/bar.bpmn" is deployed as "bar.bpmn". */
  lemma NameFromFilePath()
    ensures PrepareDeploymentName(Some(""), Some("foo/bar.bpmn"), Some("bpmn")) == Some("bar.bpmn")
  {
    Paths.StemOfJoin("foo", "bar", "bpmn");
    assert "foo" + "/" + "bar" + "." + "bpmn" == "foo/bar.bpmn";
    assert "bar" + ".bpmn" == "bar.bpmn";
  }

  /** "x" becomes "x.dmn", and "x.dmn" stays as it is. */
  lemma SuffixAppendedOnce()
    ensures PrepareDeploymentName(Some("x"), Some("diagram.dmn"), Some("dmn")) == Some("x.dmn")
    ensures PrepareDeploymentName(Some("x.dmn"), Some("diagram.dmn"), Some("dmn")) == Some("x.dmn")
  {
    assert Extension(Some("dmn")) == ".dmn";
    assert "x" + ".dmn" == "x.dmn";
    assert "x.dmn"[1..] == ".dmn";
  }
}
