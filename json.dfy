module Wrappers {

  /** A value that may be absent: Java's nullable references. */
  datatype Option<+T> = None | Some(value: T)
}

/**
 * The JSON values the handlers read command payloads as, and the accessors of
 * Gson's JsonElement tree that they use. Parsing text into this tree is not part
 * of this model: what Gson made of a command's content is an input (`Parsed`).
 */
module Json {
  import opened Wrappers

  /** A JSON value as Gson's tree holds it. Numbers keep the text they were written with. */
  datatype Json =
    | JNull
    | JBool(b: bool)
    | JNumber(lexeme: string)
    | JString(s: string)
    | JArray(elems: seq<Json>)
    | JObject(fields: map<string, Json>)

  /**
   * What `gson.fromJson(content, JsonObject.class)` produces: it throws on text
   * that is not JSON (`Malformed`), returns null on an empty document
   * (`NoDocument`), and otherwise yields a tree (`Document`), which it refuses
   * (throws) when the tree is not an object.
   */
  datatype Parsed = Malformed | NoDocument | Document(value: Json)

  /** The members of the payload object; None when reading them throws (no object). */
  function ObjectFields(doc: Parsed): (r: Option<map<string, Json>>)
    ensures r.Some? <==> doc.Document? && doc.value.JObject?
    ensures r.Some? ==> r.value == doc.value.fields
  {
    match doc
    case Document(JObject(fields)) => Some(fields)
    case _ => None
  }

  /**
   * JsonElement.getAsString: the text of a primitive; a one-element array
   * answers for its element; JSON null, objects and other arrays throw (None).
   */
  function AsString(j: Json): (r: Option<string>)
    ensures j.JString? ==> r == Some(j.s)
    ensures j.JNull? || j.JObject? ==> r == None
  {
    match j
    case JString(s) => Some(s)
    case JNumber(lexeme) => Some(lexeme)
    case JBool(b) => Some(if b then "true" else "false")
    case JArray(elems) => if |elems| == 1 then AsString(elems[0]) else None
    case _ => None
  }

  /**
   * JsonElement.getAsBoolean: a boolean primitive gives its value, any other
   * primitive is read with Boolean.parseBoolean of its text; a one-element
   * array answers for its element; JSON null, objects and other arrays throw.
   */
  function AsBoolean(j: Json): (r: Option<bool>)
    ensures j.JBool? ==> r == Some(j.b)
    ensures j.JNull? || j.JObject? ==> r == None
  {
    match j
    case JBool(b) => Some(b)
    case JString(s) => Some(ParseBoolean(s))
    case JNumber(lexeme) => Some(ParseBoolean(lexeme))
    case JArray(elems) => if |elems| == 1 then AsBoolean(elems[0]) else None
    case _ => None
  }

  /** Boolean.parseBoolean: true exactly for "true" in any mix of upper and lower case. */
  predicate ParseBoolean(s: string)
    ensures ParseBoolean(s) ==> |s| == 4
    ensures ParseBoolean(s) <==> |s| == 4 && forall i :: 0 <= i < 4 ==> LowerAscii(s[i]) == "true"[i]
  {
    |s| == 4 && LowerAscii(s[0]) == 't' && LowerAscii(s[1]) == 'r'
    && LowerAscii(s[2]) == 'u' && LowerAscii(s[3]) == 'e'
  }

  /** Character.toLowerCase restricted to ASCII: upper-case letters become lower-case, others stay. */
  function LowerAscii(c: char): (lower: char)
    ensures 'A' <= c <= 'Z' ==> 'a' <= lower <= 'z' && lower as int - 'a' as int == c as int - 'A' as int
    ensures !('A' <= c <= 'Z') ==> lower == c
  {
    if 'A' <= c <= 'Z' then (c as int - 'A' as int + 'a' as int) as char else c
  }

  /** The string in lower case, letter by letter. */
  function LowerAsciiString(s: string): (lower: string)
    ensures |lower| == |s| && forall i :: 0 <= i < |s| ==> lower[i] == LowerAscii(s[i])
  {
    seq(|s|, i requires 0 <= i < |s| => LowerAscii(s[i]))
  }

  /** Boolean.parseBoolean is true exactly on the strings whose lower-case form is "true". */
  lemma ParseBooleanIsTrueIgnoringCase(s: string)
    ensures ParseBoolean(s) <==> LowerAsciiString(s) == "true"
  {
    var lower := LowerAsciiString(s);
    if ParseBoolean(s) {
      assert forall i :: 0 <= i < 4 ==> lower[i] == "true"[i];
      assert lower == "true";
    }
    if lower == "true" {
      assert forall i :: 0 <= i < 4 ==> LowerAscii(s[i]) == "true"[i];
    }
  }

  /** Two strings equal up to the case of their letters read alike. */
  lemma ParseBooleanIgnoresCase(s: string, t: string)
    requires |s| == |t| && forall i :: 0 <= i < |s| ==> LowerAscii(s[i]) == LowerAscii(t[i])
    ensures ParseBoolean(s) == ParseBoolean(t)
  {
  }

  lemma ParseBooleanExamples()
    ensures ParseBoolean("true") && ParseBoolean("TRUE") && ParseBoolean("True")
    ensures !ParseBoolean("yes") && !ParseBoolean("1") && !ParseBoolean("")
  {
  }
}
