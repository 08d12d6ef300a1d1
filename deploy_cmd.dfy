/** The `deploy` command: checks its arguments, resolves the manifest path, checks that the
    manifest exists, and hands the absolute path to a deployment preparer. The file system
    and the preparer are parameters whose outcomes are data. */
module DeployCmd {
  import opened Common

  /** The command's name. */
  function Name(): (r: string)
    ensures r == "deploy"
  {
    "deploy"
  }

  const InvalidUsage := "Invalid usage - deploy command requires exactly 1 argument"

  /** The deployment manifest path, which must be the one and only argument. */
  function ParseCmdInputs(args: seq<string>): (r: Result<string>)
    ensures r.Ok? <==> |args| == 1
    ensures r.Ok? ==> r.value == args[0]
    ensures r.Err? ==> r.error == InvalidUsage
  {
    if |args| != 1 then Err(InvalidUsage) else Ok(args[0])
  }

  // ---------------------------------------------------------------------------------
  // Blank strings

  /** Go's unicode.IsSpace: the Latin-1 spaces and the other Unicode White_Space characters. */
  predicate IsSpace(c: char)
    // the ASCII white space characters are spaces
    ensures c == '\t' || c == '\n' || c == '\U{000B}' || c == '\U{000C}' || c == '\r' || c == ' ' ==> IsSpace(c)
    // no letter or digit of ASCII is
    ensures ('0' <= c <= '9') || ('a' <= c <= 'z') || ('A' <= c <= 'Z') ==> !IsSpace(c)
  {
    c == '\t' || c == '\n' || c == '\U{000B}' || c == '\U{000C}' || c == '\r' || c == ' '
    || c == '\U{0085}' || c == '\U{00A0}' || c == '\U{1680}' || ('\U{2000}' <= c <= '\U{200A}')
    || c == '\U{2028}' || c == '\U{2029}' || c == '\U{202F}' || c == '\U{205F}' || c == '\U{3000}'
  }

  /** `s` without its leading white space. */
  function TrimLeftSpace(s: string): (r: string)
    ensures |r| <= |s| && r == s[|s| - |r|..]
    ensures forall k :: 0 <= k < |s| - |r| ==> IsSpace(s[k])
    ensures r == [] || !IsSpace(r[0])
  {
    if s == [] || !IsSpace(s[0]) then s else TrimLeftSpace(s[1..])
  }

  /** `s` without its trailing white space. */
  function TrimRightSpace(s: string): (r: string)
    ensures |r| <= |s| && r == s[..|r|]
    ensures forall k :: |r| <= k < |s| ==> IsSpace(s[k])
    ensures r == [] || !IsSpace(r[|r| - 1])
  {
    if s == [] || !IsSpace(s[|s| - 1]) then s else TrimRightSpace(s[..|s| - 1])
  }

  /** Go's strings.TrimSpace: empty exactly when every character is white space, and otherwise
      neither starting nor ending with white space. */
  function TrimSpace(s: string): (r: string)
    ensures |r| <= |s|
    ensures r == [] <==> forall k :: 0 <= k < |s| ==> IsSpace(s[k])
    ensures r == [] || (!IsSpace(r[0]) && !IsSpace(r[|r| - 1]))
  {
    var left := TrimLeftSpace(s);
    var r := TrimRightSpace(left);
    if left == [] then
      r
    else
      assert !IsSpace(left[0]);
      assert r != [];
      assert !IsSpace(s[|s| - |left|]);
      r
  }

  /** A string is blank exactly when it is empty or made only of white space. */
  predicate IsBlank(s: string)
    ensures IsBlank(s) <==> forall k :: 0 <= k < |s| ==> IsSpace(s[k])
  {
    s == "" || TrimSpace(s) == ""
  }

  // ---------------------------------------------------------------------------------
  // Running the command

  /** What the file system and the preparer do. */
  datatype CmdEnv = CmdEnv(
    abs: string -> Result<string>,
    fileExists: string -> bool,
    prepareDeployment: string -> Option<string>)

  /** A call on the file system or the preparer, with its argument. */
  datatype CmdCall = AbsolutePath(path: string) | FileExistsChecked(path: string) | PreparerCreated(path: string) | Prepared

  /** Checks the arguments, then the path, then the file, then runs the preparer. */
  method Run(args: seq<string>, env: CmdEnv) returns (err: Option<string>, calls: seq<CmdCall>)
    // an argument error comes before any path or file system check
    ensures |args| != 1 ==> err == Some(InvalidUsage) && calls == []
    ensures |args| == 1 && env.abs(args[0]).Err? ==>
      && err == Some(Wrap("Getting absolute path to deployment file " + Quoted(args[0]), env.abs(args[0]).error))
      && calls == [AbsolutePath(args[0])]
    ensures |args| == 1 && env.abs(args[0]).Ok? ==>
      var abs := env.abs(args[0]).value;
      // a missing manifest never reaches the preparer
      && (!env.fileExists(abs) ==>
            err == Some("Deployment manifest does not exist at " + Quoted(abs))
            && calls == [AbsolutePath(args[0]), FileExistsChecked(abs)])
      // otherwise the preparer gets the absolute path, and its result is returned as is
      && (env.fileExists(abs) ==>
            err == env.prepareDeployment(abs)
            && calls == [AbsolutePath(args[0]), FileExistsChecked(abs), PreparerCreated(abs), Prepared])
  {
    calls := [];
    var parsed := ParseCmdInputs(args);
    if parsed.Err? {
      return Some(parsed.error), calls;
    }
    var deploymentManifestPath := parsed.value;

    calls := calls + [AbsolutePath(deploymentManifestPath)];
    var abs := env.abs(deploymentManifestPath);
    if abs.Err? {
      return Some(Wrap("Getting absolute path to deployment file " + Quoted(deploymentManifestPath), abs.error)), calls;
    }
    var manifestAbsFilePath := abs.value;

    calls := calls + [FileExistsChecked(manifestAbsFilePath)];
    if !env.fileExists(manifestAbsFilePath) {
      return Some("Deployment manifest does not exist at " + Quoted(manifestAbsFilePath)), calls;
    }

    calls := calls + [PreparerCreated(manifestAbsFilePath), Prepared];
    err := env.prepareDeployment(manifestAbsFilePath);
  }
}
