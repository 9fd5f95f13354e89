/** The CORS origins setting reader (remote_graphs/app/core/config.py). */
module Cors {
  import opened Json
  import opened Wrappers
  import opened Strings

  /**
   * parse_cors: a comma-separated string becomes the list of its stripped
   * pieces; a string starting with "[" and a list pass through unchanged;
   * anything else is refused with a ValueError carrying the value.
   */
  function ParseCors(v: Json): (r: Result<Json, Json>)
    ensures r.Err? <==> !v.JStr? && !v.JList?
    ensures r.Err? ==> r.error == v
    ensures (v.JList? || (v.JStr? && StartsWith(v.s, "["))) ==> r == Ok(v)
    ensures v.JStr? && !StartsWith(v.s, "[") ==>
      && r.Ok? && r.value.JList?
      && |r.value.items| == |Split(v.s, ',')|
      && forall i :: 0 <= i < |r.value.items| ==> r.value.items[i] == JStr(Strip(Split(v.s, ',')[i]))
  {
    if v.JStr? && !StartsWith(v.s, "[") then
      var pieces := Split(v.s, ',');
      Ok(JList(seq(|pieces|, i requires 0 <= i < |pieces| => JStr(Strip(pieces[i])))))
    else if v.JList? || v.JStr? then Ok(v)
    else Err(v)
  }

  /** An origin as it appears in the list: no comma and no surrounding whitespace. */
  predicate Origin(o: string)
  {
    ',' !in o && Trimmed(o)
  }

  lemma {:induction false} JoinStartsWith(xs: seq<string>, sep: string)
    requires |xs| >= 1
    ensures |xs[0]| <= |Join(xs, sep)| && Join(xs, sep)[..|xs[0]|] == xs[0]
  {
  }

  lemma JoinedNotBracketed(origins: seq<string>)
    requires |origins| >= 1
    requires origins[0] == [] || origins[0][0] != '['
    ensures !StartsWith(Join(origins, ","), "[")
  {
    var s := Join(origins, ",");
    JoinStartsWith(origins, ",");
    if origins[0] == [] && |origins| > 1 {
      assert s == origins[0] + "," + Join(origins[1..], ",");
      assert s[0] == ',';
    }
  }

  /** Reading an already parsed value again changes nothing. */
  lemma ParseCorsIdempotent(v: Json)
    requires ParseCors(v).Ok?
    ensures ParseCors(ParseCors(v).value) == ParseCors(v)
  {
  }

  /**
   * Joining origins with commas and reading the string back gives the
   * origins, in order.
   */
  lemma ParseCorsJoined(origins: seq<string>)
    requires |origins| >= 1
    requires forall k :: 0 <= k < |origins| ==> Origin(origins[k])
    requires origins[0] == [] || origins[0][0] != '['
    ensures ParseCors(JStr(Join(origins, ","))) == Ok(JList(seq(|origins|, i requires 0 <= i < |origins| => JStr(origins[i]))))
  {
    SplitJoin(origins, ',');
    JoinedNotBracketed(origins);
    OriginsStripped(origins);
  }

  lemma OriginsStripped(origins: seq<string>)
    requires forall k :: 0 <= k < |origins| ==> Origin(origins[k])
    ensures seq(|origins|, i requires 0 <= i < |origins| => JStr(Strip(origins[i])))
         == seq(|origins|, i requires 0 <= i < |origins| => JStr(origins[i]))
  {
    forall k | 0 <= k < |origins|
      ensures Strip(origins[k]) == origins[k]
    {
      StripNoEdgeSpace(origins[k]);
    }
  }
}
