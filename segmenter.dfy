/**
 * The message segmenter `split_and_insert`, written identically in app.py
 * and ui_utils.py: the narrative text is split with
 * `re.split(r"(<chart>|<data>)", text)`, and every fragment that is exactly
 * the key of an available payload is replaced by a marker for that payload.
 */
module Segmenter {
  import opened Wrappers
  import opened Strings

  const CHART_TOKEN: string := "<chart>"
  const DATA_TOKEN: string := "<data>"
  /** Not a split token: it is replaced only when a whole fragment equals it. */
  const SQL_TOKEN: string := "<sql>"

  /** The kinds of payload a message can carry, each with its key in the replacements dict. */
  datatype Kind = Sql | Data | Chart

  function Key(k: Kind): string {
    match k
    case Sql => SQL_TOKEN
    case Data => DATA_TOKEN
    case Chart => CHART_TOKEN
  }

  /** The kind whose key is exactly `fragment`, if there is one. */
  function KindOf(fragment: string): (r: Option<Kind>)
    ensures r.Some? ==> Key(r.value) == fragment
    ensures r.None? ==> forall k :: Key(k) != fragment
  {
    if fragment == SQL_TOKEN then Some(Sql)
    else if fragment == DATA_TOKEN then Some(Data)
    else if fragment == CHART_TOKEN then Some(Chart)
    else None
  }

  /** One element of the segmenter's result: a plain string, or the marker tuple of a payload. */
  datatype Piece = Text(s: string) | Marker(kind: Kind)

  /** A match of the split pattern `(<chart>|<data>)` starts at the first position of `s`. */
  predicate TokenStart(s: string) {
    StartsWith(s, CHART_TOKEN) || StartsWith(s, DATA_TOKEN)
  }

  predicate IsSplitToken(f: string) {
    f == CHART_TOKEN || f == DATA_TOKEN
  }

  /** No match of the split pattern starts anywhere in `s`. */
  predicate Plain(s: string)
    decreases |s|
  {
    |s| == 0 || (!TokenStart(s) && Plain(s[1..]))
  }

  /**
   * The split token `text` starts with, or `""` when no match of the pattern
   * starts at its first position. The body compares character by character;
   * the contract ties it to `StartsWith`. The two tokens differ in their
   * second character, so at most one of them can match.
   */
  function LeadingToken(text: string): (t: string)
    ensures |t| == 0 || IsSplitToken(t)
    ensures |t| > 0 <==> TokenStart(text)
    ensures |t| > 0 ==> StartsWith(text, t)
  {
    if |text| >= 7 && text[0] == '<' && text[1] == 'c' && text[2] == 'h' && text[3] == 'a' && text[4] == 'r' && text[5] == 't' && text[6] == '>' then
      assert text[..7] == CHART_TOKEN;
      CHART_TOKEN
    else if |text| >= 6 && text[0] == '<' && text[1] == 'd' && text[2] == 'a' && text[3] == 't' && text[4] == 'a' && text[5] == '>' then
      assert text[..6] == DATA_TOKEN;
      DATA_TOKEN
    else ""
  }

  /**
   * `re.split(r"(<chart>|<data>)", text)`: the text between matches, with each
   * match kept (the pattern is a capturing group) between its neighbours.
   * Matches are found left to right, so a text that starts with a token gives
   * an empty first fragment, and adjacent tokens an empty fragment between them.
   */
  function Split(text: string): (r: seq<string>)
    ensures |r| >= 1 && |r| % 2 == 1
    decreases |text|
  {
    if |text| == 0 then [""]
    else
      var t := LeadingToken(text);
      if |t| > 0 then ["", t] + Split(text[|t|..])
      else
        var rest := Split(text[1..]);
        [[text[0]] + rest[0]] + rest[1..]
  }

  /** Joining the fragments gives the text back: nothing is lost or added. */
  lemma {:induction false} SplitConcat(text: string)
    ensures Concat(Split(text)) == text
    decreases |text|
  {
    if |text| > 0 {
      var t := LeadingToken(text);
      if |t| > 0 {
        SplitConcat(text[|t|..]);
        ConcatTokenStep(text, t, Split(text[|t|..]));
      } else {
        SplitConcat(text[1..]);
        ConcatConsStep(text[0], Split(text[1..]));
        assert [text[0]] + text[1..] == text;
      }
    }
  }

  /** The fragments after a leading token, joined behind it, give the text back. */
  lemma ConcatTokenStep(text: string, t: string, r: seq<string>)
    requires StartsWith(text, t) && Concat(r) == text[|t|..]
    ensures Concat(["", t] + r) == text
  {
    ConcatAppend(["", t], r);
    assert text == t + text[|t|..];
  }

  /**
   * Fragments alternate: every odd position holds a token, and no token
   * starts anywhere inside a fragment at an even position.
   */
  predicate Alternates(r: seq<string>) {
    && (forall i :: 0 <= i < |r| && i % 2 == 1 ==> IsSplitToken(r[i]))
    && (forall i :: 0 <= i < |r| && i % 2 == 0 ==> Plain(r[i]))
  }

  /** `Split` cuts at every match of the pattern and nowhere else. */
  lemma {:induction false} SplitShape(text: string)
    ensures Alternates(Split(text))
    decreases |text|
  {
    if |text| == 0 {
      assert Split(text) == [""];
    } else if |LeadingToken(text)| > 0 {
      var t := LeadingToken(text);
      SplitShape(text[|t|..]);
      TokenPairAlternates(t, Split(text[|t|..]));
    } else {
      SplitShape(text[1..]);
      SplitConcat(text[1..]);
      ShapeCons(text);
    }
  }

  /** The step of SplitShape where the first character joins the first fragment of the rest. */
  lemma ShapeCons(text: string)
    requires |text| > 0 && |LeadingToken(text)| == 0
    requires Alternates(Split(text[1..])) && Concat(Split(text[1..])) == text[1..]
    ensures Alternates(Split(text))
  {
    var rest := Split(text[1..]);
    assert Split(text) == [[text[0]] + rest[0]] + rest[1..];
    assert Plain([text[0]] + rest[0]) by {
      ConcatAppend([rest[0]], rest[1..]);
      assert [rest[0]] + rest[1..] == rest;
      assert text[1..1 + |rest[0]|] == rest[0];
      ConsPlain(text, rest[0]);
    }
    HeadAlternates([text[0]] + rest[0], rest);
  }

  /** Replacing the first fragment by another plain one keeps the alternation. */
  lemma HeadAlternates(h: string, rest: seq<string>)
    requires |rest| > 0 && Alternates(rest) && Plain(h)
    ensures Alternates([h] + rest[1..])
  {
    var r := [h] + rest[1..];
    forall i | 1 <= i < |r|
      ensures r[i] == rest[i]
    {
    }
  }

  lemma TokenPairAlternates(token: string, rest: seq<string>)
    requires IsSplitToken(token) && Alternates(rest)
    ensures Alternates(["", token] + rest)
  {
    var r := ["", token] + rest;
    forall i | 2 <= i < |r|
      ensures r[i] == rest[i - 2]
    {
    }
  }

  /** A fragment that grows by the first character of a text that does not start with a token stays plain. */
  lemma ConsPlain(text: string, g: string)
    requires |text| > 0 && !TokenStart(text)
    requires Plain(g) && 1 + |g| <= |text| && text[1..1 + |g|] == g
    ensures Plain([text[0]] + g)
  {
    var f := [text[0]] + g;
    assert f[1..] == g;
    assert !TokenStart(f) by {
      assert f == text[..|f|];
      PrefixStartsWith(f, text, CHART_TOKEN);
      PrefixStartsWith(f, text, DATA_TOKEN);
    }
  }

  /** A prefix that starts with `p` belongs to a text that starts with `p`. */
  lemma PrefixStartsWith(f: string, text: string, p: string)
    requires |f| <= |text| && f == text[..|f|]
    ensures StartsWith(f, p) ==> StartsWith(text, p)
  {
    if StartsWith(f, p) {
      assert text[..|p|] == f[..|p|];
    }
  }

  /** A text with no split token is a single fragment. */
  lemma {:induction false} PlainSplit(text: string)
    requires Plain(text)
    ensures Split(text) == [text]
    decreases |text|
  {
    if |text| > 0 {
      PlainSplit(text[1..]);
      assert [text[0]] + text[1..] == text;
    }
  }

  /** What `split_and_insert` puts in the result for one fragment. */
  function Resolve(fragment: string, available: set<Kind>): Piece {
    match KindOf(fragment)
    case Some(k) => if k in available then Marker(k) else Text(fragment)
    case None => Text(fragment)
  }

  /** The text a piece stands for: the fragment itself, or the key its marker replaced. */
  function Original(p: Piece): string {
    match p
    case Text(s) => s
    case Marker(k) => Key(k)
  }

  function Originals(ps: seq<Piece>): seq<string> {
    seq(|ps|, i requires 0 <= i < |ps| => Original(ps[i]))
  }

  /** The result of `split_and_insert(text, replacements)` when `available` are the keys of `replacements`. */
  function Segments(text: string, available: set<Kind>): seq<Piece> {
    var fragments := Split(text);
    seq(|fragments|, i requires 0 <= i < |fragments| => Resolve(fragments[i], available))
  }

  /** split_and_insert: the loop over the fragments of `re.split`. */
  method SplitAndInsert(text: string, available: set<Kind>) returns (result: seq<Piece>)
    ensures result == Segments(text, available)
  {
    var tokens := Split(text);
    result := [];
    for i := 0 to |tokens|
      invariant |result| == i
      invariant forall j :: 0 <= j < i ==> result[j] == Resolve(tokens[j], available)
    {
      var k := KindOf(tokens[i]);
      if k.Some? && k.value in available {
        result := result + [Marker(k.value)];
      } else {
        result := result + [Text(tokens[i])];
      }
    }
  }

  /** Putting each marker's key back and joining all pieces gives the input text. */
  lemma SegmentsRoundTrip(text: string, available: set<Kind>)
    ensures Concat(Originals(Segments(text, available))) == text
  {
    var fragments := Split(text);
    var r := Segments(text, available);
    SplitConcat(text);
    assert Originals(r) == fragments by {
      forall i | 0 <= i < |r|
        ensures Original(r[i]) == fragments[i]
      {
        var k := KindOf(fragments[i]);
      }
    }
  }

  /**
   * Position by position, the result replaces a fragment by a marker exactly
   * when the fragment is the key of an available kind, and otherwise keeps
   * the fragment verbatim (empty fragments and unavailable tokens included).
   */
  lemma SegmentsMarkers(text: string, available: set<Kind>)
    ensures |Segments(text, available)| == |Split(text)|
    ensures forall i, k :: 0 <= i < |Split(text)| ==>
      (Segments(text, available)[i] == Marker(k) <==> k in available && Split(text)[i] == Key(k))
    ensures forall i :: 0 <= i < |Split(text)| && Segments(text, available)[i].Text? ==>
      Segments(text, available)[i].s == Split(text)[i]
  {
  }

  /** A token whose payload is missing stays literal text and never becomes a marker. */
  lemma UnavailableStaysText(text: string, available: set<Kind>, k: Kind)
    requires k !in available
    ensures Marker(k) !in Segments(text, available)
    ensures forall i :: 0 <= i < |Split(text)| && Split(text)[i] == Key(k) ==>
      Segments(text, available)[i] == Text(Key(k))
  {
    var r := Segments(text, available);
    forall i | 0 <= i < |r|
      ensures r[i] != Marker(k)
    {
    }
  }

  /** A text without `<chart>` or `<data>` comes back as one piece. */
  lemma PlainSegments(text: string, available: set<Kind>)
    requires Plain(text)
    ensures Segments(text, available) == [Resolve(text, available)]
    ensures text != SQL_TOKEN || Sql !in available ==> Segments(text, available) == [Text(text)]
  {
    PlainSplit(text);
  }
}
