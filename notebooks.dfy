/**
 * Notebook definitions: the GitHub link rewrite and the create, notice or error
 * decision of a web import, the selection of the primary content part and the
 * notebook type read from its path, and the one-part definition payloads of
 * create and update.
 */
module Notebooks {
  import opened Wrappers
  import opened Errors
  import opened PyStrings
  import opened JsonValues
  import opened Resolvers

  /** The path prefix of a notebook's content part. */
  const NotebookPrefix := "notebook-content."
  const GitHubPrefix := "https://github.com/"
  const RawPrefix := "https://raw.githubusercontent.com/"
  const BlobSegment := "/blob/"

  // ---------------------------------------------------------------------------
  // The GitHub link rewrite
  // ---------------------------------------------------------------------------

  /** A GitHub page link becomes the link of the raw file; any other URL is kept. */
  function RawUrl(url: string): string {
    if StartsWith(url, GitHubPrefix) then ReplaceAll(RawPrefix + url[|GitHubPrefix|..], BlobSegment, "/")
    else url
  }

  /** The raw host name has slashes only in its scheme separator `//`. */
  lemma RawHostSlashes(host: string)
    requires host == RawPrefix[..|RawPrefix| - 1]
    ensures |host| > 8 && host[6] == '/' && host[7] == '/' && host[8] == 'r'
    ensures forall j :: 0 <= j < |host| && j != 6 && j != 7 ==> host[j] != '/'
  {
    var scheme, name := "https:", "raw.githubusercontent.com";
    assert host == scheme + "//" + name;
    assert '/' !in scheme && '/' !in name;
    forall j | 0 <= j < |host| && j != 6 && j != 7 ensures host[j] != '/' {
      if j < 6 {
        assert host[j] == scheme[j];
      } else if j >= 8 {
        assert host[j] == name[j - 8];
      }
    }
  }

  /** No occurrence of `/blob/` starts inside the raw host name. */
  lemma NoBlobInRawHost(host: string, tail: string)
    requires host == RawPrefix[..|RawPrefix| - 1]
    requires |tail| > 0 && tail[0] == '/'
    ensures forall i :: 0 <= i < |host| ==> !MatchAt(host + tail, i, BlobSegment)
  {
    RawHostSlashes(host);
    var s := host + tail;
    forall i | 0 <= i < |host| ensures !MatchAt(s, i, BlobSegment) {
      assert s[i] == host[i];
      if host[i] == '/' {
        assert s[i + 1] == host[i + 1] && (i == 6 || i == 7);
        assert s[i + 1] != 'b';
      }
      assert BlobSegment[0] == '/' && BlobSegment[1] == 'b';
      NotMatchAtFirstTwo(s, i, BlobSegment);
    }
  }

  /** Replacing `/blob/` in text that starts with `/` keeps that first `/`. */
  lemma ReplaceBlobKeepsSlash(b: string)
    requires |b| > 0 && b[0] == '/'
    ensures var r := ReplaceAll(b, BlobSegment, "/"); |r| > 0 && r[0] == '/'
  {
  }

  /** The raw host followed by a path is a raw link and not a GitHub one. */
  lemma RawHostPrefix(host: string, tail: string)
    requires host == RawPrefix[..|RawPrefix| - 1]
    requires |tail| > 0 && tail[0] == '/'
    ensures StartsWith(host + tail, RawPrefix) && !StartsWith(host + tail, GitHubPrefix)
  {
    assert (host + tail)[..|RawPrefix|] == host + [tail[0]];
    assert (host + tail)[8] == host[8] == 'r';
  }

  /**
   * A rewritten GitHub link is the raw host followed by the link's path with
   * every `/blob/` replaced by `/`; it starts with the raw prefix and no longer
   * with the GitHub one. Every other URL is returned unchanged, even when it
   * contains `/blob/`.
   */
  lemma RawUrlShape(url: string)
    ensures StartsWith(url, GitHubPrefix) ==>
      RawUrl(url) == RawPrefix[..|RawPrefix| - 1] + ReplaceAll("/" + url[|GitHubPrefix|..], BlobSegment, "/")
    ensures StartsWith(url, GitHubPrefix) ==>
      StartsWith(RawUrl(url), RawPrefix) && !StartsWith(RawUrl(url), GitHubPrefix)
    ensures !StartsWith(url, GitHubPrefix) ==> RawUrl(url) == url
  {
    if StartsWith(url, GitHubPrefix) {
      var rest := url[|GitHubPrefix|..];
      var host := RawPrefix[..|RawPrefix| - 1];
      assert RawPrefix + rest == host + ("/" + rest);
      NoBlobInRawHost(host, "/" + rest);
      ReplaceAllKeepsPrefix(host, "/" + rest, BlobSegment, "/");
      var tail := ReplaceAll("/" + rest, BlobSegment, "/");
      ReplaceBlobKeepsSlash("/" + rest);
      assert RawUrl(url) == host + tail;
      RawHostPrefix(host, tail);
    }
  }

  /** The rewrite is idempotent: a rewritten link is left alone by a second rewrite. */
  lemma RawUrlIdempotent(url: string)
    ensures RawUrl(RawUrl(url)) == RawUrl(url)
  {
    RawUrlShape(url);
    RawUrlShape(RawUrl(url));
  }

  // ---------------------------------------------------------------------------
  // Definition parts
  // ---------------------------------------------------------------------------

  /** One part of a notebook definition. */
  datatype Part = Part(path: string, payload: string, payloadType: string)

  predicate IsContentPart(p: Part) {
    StartsWith(p.path, NotebookPrefix)
  }

  /** The first part whose path starts with the content prefix; `.iloc[0]` fails when none does. */
  function PrimaryPart(parts: seq<Part>): (r: Result<Part, Error>)
    ensures r.Ok? <==> exists i :: 0 <= i < |parts| && IsContentPart(parts[i])
    ensures r.Ok? ==> exists i :: 0 <= i < |parts| && parts[i] == r.value && IsContentPart(parts[i]) &&
                                  forall j :: 0 <= j < i ==> !IsContentPart(parts[j])
    ensures r.Err? ==> r.error == IndexError
  {
    if parts == [] then Err(IndexError)
    else if IsContentPart(parts[0]) then Ok(parts[0])
    else
      var r := PrimaryPart(parts[1..]);
      assert forall i :: 1 <= i < |parts| ==> parts[i] == parts[1..][i - 1];
      if r.Ok? then
        var i :| 0 <= i < |parts[1..]| && parts[1..][i] == r.value && IsContentPart(parts[1..][i]) &&
                 forall j :: 0 <= j < i ==> !IsContentPart(parts[1..][j]);
        assert parts[i + 1] == r.value;
        assert forall j :: 1 <= j < i + 1 ==> parts[j] == parts[1..][j - 1];
        r
      else
        r
  }

  /** The notebook type: the extension of the primary part's path without its dot. */
  function NotebookType(parts: seq<Part>): Result<string, Error> {
    var primary :- PrimaryPart(parts);
    Ok(SliceFrom(Extension(primary.path), 1))
  }

  /** The part create_notebook and update_notebook_definition write. */
  function ContentPart(notebookType: string, payload: string): Part {
    Part(NotebookPrefix + notebookType, payload, "InlineBase64")
  }

  /** The extension of a content path whose type has no dot and no slash is the type after a dot. */
  lemma ExtensionOfContentPath(t: string)
    requires '.' !in t && '/' !in t
    ensures Extension(NotebookPrefix + t) == "." + t
  {
    var p := NotebookPrefix + t;
    var dotAt := |NotebookPrefix| - 1;
    assert p[dotAt] == '.';
    assert forall j :: dotAt < j < |p| ==> p[j] == t[j - |NotebookPrefix|];
    assert forall j :: 0 <= j < |NotebookPrefix| ==> p[j] == NotebookPrefix[j];
    assert '/' !in NotebookPrefix;
    assert '/' !in p;
    assert RFind(p, '/') == -1;
    assert RFind(p, '.') == dotAt;
    assert p[0] != '.';
    assert p[dotAt..] == "." + t;
  }

  /**
   * A type written into the content path by create_notebook is read back by the
   * type inference, whatever other parts come after it.
   */
  lemma NotebookTypeRoundTrip(t: string, payload: string, others: seq<Part>)
    requires '.' !in t && '/' !in t
    ensures NotebookType([ContentPart(t, payload)] + others) == Ok(t)
  {
    ExtensionOfContentPath(t);
    assert IsContentPart(([ContentPart(t, payload)] + others)[0]);
  }

  /**
   * get_notebook_definition: the payload of the primary part, passed through
   * the decoder when `decode` is set.
   */
  function GetNotebookDefinition(parts: seq<Part>, decode: bool, decoder: string -> string): Result<string, Error> {
    var primary :- PrimaryPart(parts);
    Ok(if decode then decoder(primary.payload) else primary.payload)
  }

  /**
   * The definition returned is the payload of the first content part, raw or
   * decoded; without a content part the call fails.
   */
  lemma GetNotebookDefinitionSpec(parts: seq<Part>, decode: bool, decoder: string -> string)
    ensures var r := GetNotebookDefinition(parts, decode, decoder);
      && (r.Ok? <==> exists i :: 0 <= i < |parts| && IsContentPart(parts[i]))
      && (r.Ok? ==> exists i :: 0 <= i < |parts| && IsContentPart(parts[i]) &&
                      (forall j :: 0 <= j < i ==> !IsContentPart(parts[j])) &&
                      r.value == (if decode then decoder(parts[i].payload) else parts[i].payload))
  {
  }

  /** The request path of the definition call; `?format=ipynb` only for the ipynb format. */
  function DefinitionUrl(workspaceId: string, itemId: string, format: Option<string>): string {
    "v1/workspaces/" + workspaceId + "/notebooks/" + itemId + "/getDefinition" +
    (if format == Some("ipynb") then "?format=ipynb" else "")
  }

  /**
   * The definition call goes to the `getDefinition` action of the notebook in
   * its workspace; the query `?format=ipynb` follows exactly when the ipynb
   * format is asked for, and nothing follows otherwise.
   */
  lemma DefinitionUrlShape(workspaceId: string, itemId: string, format: Option<string>)
    ensures var base := "v1/workspaces/" + workspaceId + "/notebooks/" + itemId + "/getDefinition";
      var url := DefinitionUrl(workspaceId, itemId, format);
      && StartsWith(url, base)
      && (format == Some("ipynb") ==> url[|base|..] == "?format=ipynb")
      && (format != Some("ipynb") ==> url == base)
  {
    var base := "v1/workspaces/" + workspaceId + "/notebooks/" + itemId + "/getDefinition";
    assert (base + "?format=ipynb")[..|base|] == base;
  }

  // ---------------------------------------------------------------------------
  // Definition payloads
  // ---------------------------------------------------------------------------

  function PartValue(p: Part): Value {
    Obj([Field("path", Str(p.path)), Field("payload", Str(p.payload)), Field("payloadType", Str(p.payloadType))])
  }

  /** The definition create_notebook sends for an encoded payload. */
  function DefinitionPayload(encoded: string, notebookType: string, format: Option<string>): Value {
    Obj([Field("parts", Arr([PartValue(ContentPart(notebookType, encoded))]))] +
        (if format == Some("ipynb") then [Field("format", Str("ipynb"))] else []))
  }

  /** The body update_notebook_definition sends: the same definition under `definition`. */
  function UpdatePayload(encoded: string, notebookType: string, format: Option<string>): Value {
    Obj([Field("definition", DefinitionPayload(encoded, notebookType, format))])
  }

  /** create_notebook's payload: the one-part dict, then `format` set when it is ipynb. */
  method BuildDefinitionPayload(encoded: string, notebookType: string, format: Option<string>) returns (d: Value)
    ensures d == DefinitionPayload(encoded, notebookType, format)
  {
    var fields := [Field("parts", Arr([PartValue(Part(NotebookPrefix + notebookType, encoded, "InlineBase64"))]))];
    if format == Some("ipynb") {
      assert Keys(fields) == ["parts"];
      SetKeyFresh(fields, "format", Str("ipynb"));
      fields := SetKey(fields, "format", Str("ipynb"));
    }
    d := Obj(fields);
  }

  /** update_notebook_definition's payload: the part under `definition`, then its `format` set. */
  method BuildUpdatePayload(encoded: string, notebookType: string, format: Option<string>) returns (d: Value)
    ensures d == UpdatePayload(encoded, notebookType, format)
  {
    var definition := [Field("parts", Arr([PartValue(Part(NotebookPrefix + notebookType, encoded, "InlineBase64"))]))];
    if format == Some("ipynb") {
      assert Keys(definition) == ["parts"];
      SetKeyFresh(definition, "format", Str("ipynb"));
      definition := SetKey(definition, "format", Str("ipynb"));
    }
    assert Obj(definition) == DefinitionPayload(encoded, notebookType, format);
    d := Obj([Field("definition", Obj(definition))]);
  }

  /**
   * A definition has exactly one part, the content part of the given type with
   * payload type InlineBase64, and a `format` key exactly when the format is
   * ipynb.
   */
  lemma DefinitionPayloadShape(encoded: string, notebookType: string, format: Option<string>)
    ensures var fs := DefinitionPayload(encoded, notebookType, format).fields;
      && Lookup(fs, "parts") == Some(Arr([PartValue(Part(NotebookPrefix + notebookType, encoded, "InlineBase64"))]))
      && (Lookup(fs, "format").Some? <==> format == Some("ipynb"))
      && (Lookup(fs, "format").Some? ==> Lookup(fs, "format").value == Str("ipynb"))
      && Keys(fs) == (if format == Some("ipynb") then ["parts", "format"] else ["parts"])
  {
    var fs := DefinitionPayload(encoded, notebookType, format).fields;
    if format == Some("ipynb") {
      assert fs[1..] == [Field("format", Str("ipynb"))];
      assert Lookup(fs, "format") == Lookup(fs[1..], "format");
    }
  }

  /** The POST update_notebook_definition issues. */
  datatype UpdateRequest = UpdateRequest(path: string, payload: Value)

  /**
   * update_notebook_definition up to its HTTP call: the path type is inferred
   * from the notebook's current definition, not taken from the caller.
   */
  function UpdateNotebookDefinition(workspaceId: string, itemId: string, encoded: string,
                                    currentParts: seq<Part>, format: Option<string>): Result<UpdateRequest, Error>
  {
    var notebookType :- NotebookType(currentParts);
    Ok(UpdateRequest("v1/workspaces/" + workspaceId + "/notebooks/" + itemId + "/updateDefinition",
                     UpdatePayload(encoded, notebookType, format)))
  }

  /** Updating a notebook created with type `t` writes its new content under type `t` again. */
  lemma UpdateKeepsType(workspaceId: string, itemId: string, encoded: string, t: string, previous: string,
                        others: seq<Part>, format: Option<string>)
    requires '.' !in t && '/' !in t
    ensures var r := UpdateNotebookDefinition(workspaceId, itemId, encoded, [ContentPart(t, previous)] + others, format);
      r.Ok? && r.value.payload == UpdatePayload(encoded, t, format)
  {
    NotebookTypeRoundTrip(t, previous, others);
  }

  // ---------------------------------------------------------------------------
  // Import from the web
  // ---------------------------------------------------------------------------

  /** What the web server answered. */
  datatype FetchResponse = FetchResponse(status: int, content: string)

  /** The visible outcome of a successful import call. */
  datatype ImportOutcome =
    | Create(workspaceId: string, name: string, description: Option<string>, definition: Value)
    | OverwriteNotice

  /**
   * import_notebook_from_web: resolve the workspace, fetch the rewritten URL,
   * then create the notebook in ipynb format if no notebook has its display
   * name, print a notice if one does and overwrite is set, and raise otherwise.
   */
  function ImportNotebookFromWeb(name: string, url: string, description: Option<string>, overwrite: bool,
                                 workspace: Result<Resolved, Error>, fetch: string -> FetchResponse,
                                 existingNames: seq<string>, encode: string -> string): Result<ImportOutcome, Error>
  {
    var ws :- workspace;
    var response := fetch(RawUrl(url));
    if response.status != 200 then Err(FetchFailed(response.status))
    else if name !in existingNames then
      Ok(Create(ws.id, name, description, DefinitionPayload(encode(response.content), "py", Some("ipynb"))))
    else if overwrite then Ok(OverwriteNotice)
    else Err(NotebookExists(name))
  }

  /**
   * A workspace that cannot be resolved raises before anything is fetched.
   * Otherwise the four outcomes in order: a failed fetch raises before the
   * existence check; a new name is created in that workspace as a py notebook
   * in ipynb format from the fetched content; an existing name with overwrite
   * only prints a notice; an existing name without overwrite raises.
   */
  lemma ImportOutcomes(name: string, url: string, description: Option<string>, overwrite: bool,
                       workspace: Result<Resolved, Error>, fetch: string -> FetchResponse,
                       existingNames: seq<string>, encode: string -> string)
    ensures workspace.Err? ==>
      ImportNotebookFromWeb(name, url, description, overwrite, workspace, fetch, existingNames, encode) ==
      Err(workspace.error)
    ensures workspace.Ok? ==>
      var response := fetch(RawUrl(url));
      var r := ImportNotebookFromWeb(name, url, description, overwrite, workspace, fetch, existingNames, encode);
      && (response.status != 200 <==> r == Err(FetchFailed(response.status)))
      && (r.Ok? && r.value.Create? <==> response.status == 200 && name !in existingNames)
      && (r.Ok? && r.value.Create? ==>
            r.value.workspaceId == workspace.value.id && r.value.name == name &&
            r.value.definition == DefinitionPayload(encode(response.content), "py", Some("ipynb")))
      && (r == Ok(OverwriteNotice) <==> response.status == 200 && name in existingNames && overwrite)
      && (r == Err(NotebookExists(name)) <==> response.status == 200 && name in existingNames && !overwrite)
  {
  }

  /** An imported notebook's type reads back as py. */
  lemma ImportedTypeIsPy(encoded: string)
    ensures NotebookType([ContentPart("py", encoded)]) == Ok("py")
  {
    NotebookTypeRoundTrip("py", encoded, []);
    assert [ContentPart("py", encoded)] + [] == [ContentPart("py", encoded)];
  }
}
