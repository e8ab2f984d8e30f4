/** The decision helpers of `internal/utils/utils.go` and `cmd/libs/libs.go`
    (the two files hold the same code): the markdown-extension test and the
    serialized error body. */
module Utils {
  import opened Base
  import opened Text

  /** `IsNotMarkdown`: split the name on "." and compare the last part with
      "md", case-sensitively. */
  predicate IsNotMarkdown(name: string) {
    LastSegment(name, '.') != "md"
  }

  /** A name counts as markdown exactly when it is "md" itself or ends in
      ".md". */
  lemma MarkdownIffSuffix(name: string)
    ensures !IsNotMarkdown(name) <==> (name == "md" || HasSuffix(name, ".md"))
  {
    var r := LastSegment(name, '.');
    LastSegmentIsSuffix(name, '.');
    if HasSuffix(name, ".md") {
      var p := name[..|name| - 3];
      assert name == p + ['.'] + "md";
      LastSegmentOfJoinDot(p);
    } else if name == "md" {
      SegmentsOfPlain(name, '.');
    }
  }

  lemma LastSegmentOfJoinDot(p: string)
    ensures LastSegment(p + ['.'] + "md", '.') == "md"
  {
    LastSegmentOfJoin(p, '.', "md");
  }

  /** `ErrorData`: the serialized error response. */
  datatype ErrorData = ErrorData(status: int, err: string)

  /** The JSON keys the struct tags give the two fields. */
  const StatusKey := "statusCode"
  const MessageKey := "ErrorMessage"

  /** The JSON value `json.Marshal` is handed; the byte encoding itself is
      the library's. */
  datatype Json =
    | JNumber(n: int)
    | JString(s: string)
    | JObject(fields: seq<(string, Json)>)

  function Lookup(fields: seq<(string, Json)>, key: string): Option<Json> {
    if fields == [] then None
    else if fields[0].0 == key then Some(fields[0].1)
    else Lookup(fields[1..], key)
  }

  /** The object the struct marshals to: the status under "statusCode", the
      message under "ErrorMessage". */
  function ToJson(e: ErrorData): (j: Json)
    ensures j.JObject?
    ensures Lookup(j.fields, StatusKey) == Some(JNumber(e.status))
    ensures Lookup(j.fields, MessageKey) == Some(JString(e.err))
  {
    JObject([(StatusKey, JNumber(e.status)), (MessageKey, JString(e.err))])
  }

  /** Reads an error body back from its JSON object. */
  function FromJson(j: Json): Option<ErrorData> {
    if !j.JObject? then None
    else
      match (Lookup(j.fields, StatusKey), Lookup(j.fields, MessageKey))
      case (Some(JNumber(n)), Some(JString(m))) => Some(ErrorData(n, m))
      case _ => None
  }

  lemma ErrorJsonRoundTrip(e: ErrorData)
    ensures FromJson(ToJson(e)) == Some(e)
  {
  }

  /** `CreateErrorJSON(status, err)`: the status and the error's message,
      verbatim, marshalled by `marshal` (whose own error is discarded). */
  function CreateErrorJSON(status: int, message: string, marshal: Json -> string): (body: string)
    ensures body == marshal(ToJson(ErrorData(status, message)))
    ensures FromJson(ToJson(ErrorData(status, message))) == Some(ErrorData(status, message))
  {
    marshal(ToJson(ErrorData(status, message)))
  }
}
