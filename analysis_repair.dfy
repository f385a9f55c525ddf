/** The pure text handling of the analysis endpoint
    (app/api/generate-analysis/route.ts): stripping a "```json" wrapper from
    the generated text, and the `JSON.parse` reviver that escapes backslashes
    and double quotes in the `reportMarkdown` string. */
module AnalysisRepair {
  import opened JsString
  import opened JsonValue

  const Fence: string := "```json"
  const ReportKey: string := "reportMarkdown"

  // ---------------------------------------------------------------------------
  // Fence stripping (route.ts lines 53-55)
  // ---------------------------------------------------------------------------

  /** Text starting with "```json" loses its first 7 and last 3 characters (by
      `substring`, so the two bounds swap when the text is shorter than 10) and
      is trimmed; any other text is kept. */
  function StripFence(text: string): (r: string)
    ensures !StartsWith(text, Fence) ==> r == text
    ensures StartsWith(text, Fence) ==> r == Trim(r)
    ensures StartsWith(text, Fence) && |text| >= 10 ==> |r| <= |text| - 10
  {
    if StartsWith(text, Fence) then
      TrimIdempotent(Substring(text, 7, |text| - 3));
      Trim(Substring(text, 7, |text| - 3))
    else text
  }

  /** With at least 10 characters, the result is the trimmed text between the
      fence and the last three characters. */
  lemma StripFenceLong(text: string)
    requires StartsWith(text, Fence) && |text| >= 10
    ensures StripFence(text) == Trim(text[7..|text| - 3])
  {
  }

  /** Whatever the last three characters are, they are dropped: a body wrapped
      as "```json" + body + tail with |tail| == 3 comes back as the trimmed
      body, also when tail is not "```". */
  lemma StripFenceWrapped(body: string, tail: string)
    requires |tail| == 3
    ensures StripFence(Fence + body + tail) == Trim(body)
  {
    var text := Fence + body + tail;
    assert text[..7] == Fence;
    assert text[7..|text| - 3] == body;
  }

  /** Between 7 and 9 characters, `substring(7, len - 3)` swaps its bounds and
      keeps characters from inside the fence itself. */
  lemma StripFenceShort(text: string)
    requires StartsWith(text, Fence) && |text| < 10
    ensures StripFence(text) == Trim(text[|text| - 3..7])
  {
  }

  /** The bare fence turns into "son" (characters 4 to 7 of "```json"). */
  lemma StripBareFence()
    ensures StripFence(Fence) == "son"
  {
    assert Substring(Fence, 7, 4) == "son";
    assert LeadingSpace("son") == 0;
    assert TrailingSpace("son") == 0;
  }

  // ---------------------------------------------------------------------------
  // Escaping (route.ts line 63)
  // ---------------------------------------------------------------------------

  /** `s.replace(/c/g, rep)` for a pattern matching the single character `c`. */
  function ReplaceAll(s: string, c: char, rep: string): (r: string)
    ensures c !in s ==> r == s
    ensures c !in rep ==> c !in r
    ensures |rep| >= 1 ==> |r| >= |s|
  {
    if s == [] then [] else (if s[0] == c then rep else [s[0]]) + ReplaceAll(s[1..], c, rep)
  }

  lemma {:induction false} ReplaceAllAppend(a: string, b: string, c: char, rep: string)
    ensures ReplaceAll(a + b, c, rep) == ReplaceAll(a, c, rep) + ReplaceAll(b, c, rep)
  {
    if a != [] {
      assert (a + b)[1..] == a[1..] + b;
      ReplaceAllAppend(a[1..], b, c, rep);
    } else {
      assert a + b == b;
    }
  }

  /** The reviver's rewrite, as written: first every backslash is doubled,
      then every double quote gets a backslash in front. */
  function Escape(s: string): (r: string)
    ensures '\\' !in s && '"' !in s ==> r == s
    ensures |r| >= |s|
  {
    ReplaceAll(ReplaceAll(s, '\\', "\\\\"), '"', "\\\"")
  }

  /** Reference definition: one left-to-right pass, character by character. */
  function EscapeChar(c: char): string {
    if c == '\\' then "\\\\" else if c == '"' then "\\\"" else [c]
  }

  function EscapeEach(s: string): string {
    if s == [] then [] else EscapeChar(s[0]) + EscapeEach(s[1..])
  }

  /** The two `replace` passes equal one pass over the characters: the
      backslashes added by the second pass are never doubled. */
  lemma {:induction false} EscapeIsOnePass(s: string)
    ensures Escape(s) == EscapeEach(s)
  {
    if s != [] {
      assert s == [s[0]] + s[1..];
      ReplaceAllAppend([s[0]], s[1..], '\\', "\\\\");
      var first := ReplaceAll([s[0]], '\\', "\\\\");
      ReplaceAllAppend(first, ReplaceAll(s[1..], '\\', "\\\\"), '"', "\\\"");
      EscapeIsOnePass(s[1..]);
      if s[0] == '\\' {
        assert first == "\\\\";
        assert ReplaceAll(first, '"', "\\\"") == "\\\\" by {
          assert first[1..] == "\\";
          assert first[1..][1..] == [];
        }
      } else {
        assert first == [s[0]];
        assert [s[0]][1..] == [];
      }
    }
  }

  /** Number of occurrences of `c` in `s`. */
  function Count(s: string, c: char): (n: nat)
    ensures n <= |s|
    ensures n == 0 <==> c !in s
  {
    if s == [] then 0 else (if s[0] == c then 1 else 0) + Count(s[1..], c)
  }

  /** Each backslash and each double quote adds exactly one character. */
  lemma {:induction false} EscapeLength(s: string)
    ensures |Escape(s)| == |s| + Count(s, '\\') + Count(s, '"')
  {
    EscapeIsOnePass(s);
    EscapeEachLength(s);
  }

  lemma {:induction false} EscapeEachLength(s: string)
    ensures |EscapeEach(s)| == |s| + Count(s, '\\') + Count(s, '"')
  {
    if s != [] {
      EscapeEachLength(s[1..]);
    }
  }

  /** The rewrite changes a string exactly when it holds a backslash or a
      double quote. */
  lemma EscapeUnchangedIff(s: string)
    ensures Escape(s) == s <==> ('\\' !in s && '"' !in s)
  {
    EscapeLength(s);
    if '\\' !in s && '"' !in s {
      EscapeIsOnePass(s);
      EscapeEachIdentity(s);
    }
  }

  lemma {:induction false} EscapeEachIdentity(s: string)
    requires '\\' !in s && '"' !in s
    ensures EscapeEach(s) == s
  {
    if s != [] {
      assert s[0] in s;
      assert forall c :: c in s[1..] ==> c in s;
      EscapeEachIdentity(s[1..]);
      assert s == [s[0]] + s[1..];
    }
  }

  /** Left-to-right decoding of the two escapes: "\\\\" gives a backslash and
      "\\\"" a double quote; every other character is kept. */
  function Unescape(s: string): string {
    if s == [] then []
    else if |s| >= 2 && s[0] == '\\' && (s[1] == '\\' || s[1] == '"') then [s[1]] + Unescape(s[2..])
    else [s[0]] + Unescape(s[1..])
  }

  /** The rewrite loses nothing: decoding it gives the original string back. */
  lemma {:induction false} UnescapeEscape(s: string)
    ensures Unescape(Escape(s)) == s
  {
    EscapeIsOnePass(s);
    UnescapeEscapeEach(s);
  }

  lemma {:induction false} UnescapeEscapeEach(s: string)
    ensures Unescape(EscapeEach(s)) == s
  {
    if s != [] {
      var rest := EscapeEach(s[1..]);
      UnescapeEscapeEach(s[1..]);
      var e := EscapeChar(s[0]) + rest;
      if s[0] == '\\' || s[0] == '"' {
        assert e[0] == '\\' && e[1] == s[0];
        assert e[2..] == rest;
      } else {
        assert e[0] == s[0];
        assert e[1..] == rest;
      }
      assert s == [s[0]] + s[1..];
    }
  }

  /** Two strings are rewritten alike only if they are equal. */
  lemma EscapeInjective(s: string, t: string)
    requires Escape(s) == Escape(t)
    ensures s == t
  {
    UnescapeEscape(s);
    UnescapeEscape(t);
  }

  // ---------------------------------------------------------------------------
  // The reviver and JSON.parse's walk (route.ts lines 61-66)
  // ---------------------------------------------------------------------------

  /** The arrow function passed to `JSON.parse`: a string under the key
      "reportMarkdown" is escaped; every other value is returned as it is. */
  function ReportReviver(key: string, value: Json): (r: Json)
    ensures key != ReportKey || !value.JStr? ==> r == value
    ensures key == ReportKey && value.JStr? ==> r == JStr(EscapeEach(value.s))
    ensures key == ReportKey && value.JStr? ==> r.JStr? && Unescape(r.s) == value.s
  {
    if key == ReportKey && value.JStr? then
      EscapeIsOnePass(value.s);
      UnescapeEscape(value.s);
      JStr(Escape(value.s))
    else value
  }

  lemma IndexKeyNotReportKey(i: nat)
    ensures IndexKey(i) != ReportKey
  {
    var key := IndexKey(i);
    assert '0' <= key[0] <= '9';
    assert ReportKey[0] == 'r';
  }

  /** `JSON.parse`'s internalising walk, bottom-up: each element and member is
      walked first and then handed to the reviver with its key (the index's
      digits for an array element). Keys, order and kinds are kept. */
  function Internalize(j: Json): (r: Json)
    ensures !j.JArr? && !j.JObj? ==> r == j
    ensures j.JArr? <==> r.JArr?
    ensures j.JObj? <==> r.JObj?
    ensures j.JStr? <==> r.JStr?
    ensures j.JArr? ==> |r.items| == |j.items|
    ensures j.JObj? ==> |r.members| == |j.members|
    ensures j.JObj? ==> forall i :: 0 <= i < |j.members| ==> r.members[i].0 == j.members[i].0
  {
    match j
    case JArr(items) =>
      JArr(seq(|items|, i requires 0 <= i < |items| => ReportReviver(IndexKey(i), Internalize(items[i]))))
    case JObj(ms) =>
      JObj(seq(|ms|, i requires 0 <= i < |ms| => (ms[i].0, ReportReviver(ms[i].0, Internalize(ms[i].1)))))
    case _ => j
  }

  /** `JSON.parse(text, reviver)` once the text is parsed into `j`: the walk,
      then the reviver on the root under the empty key. */
  function ParseWithReviver(j: Json): (r: Json)
    ensures r == Internalize(j)
  {
    ReportReviver("", Internalize(j))
  }

  /** Partner of the reviver: decodes every "reportMarkdown" string. */
  function RestoreReviver(key: string, value: Json): Json {
    if key == ReportKey && value.JStr? then JStr(Unescape(value.s)) else value
  }

  function Restore(j: Json): Json {
    match j
    case JArr(items) =>
      JArr(seq(|items|, i requires 0 <= i < |items| => RestoreReviver(IndexKey(i), Restore(items[i]))))
    case JObj(ms) =>
      JObj(seq(|ms|, i requires 0 <= i < |ms| => (ms[i].0, RestoreReviver(ms[i].0, Restore(ms[i].1)))))
    case _ => j
  }

  /** The reviver loses no information anywhere in the tree. */
  lemma {:induction false} RestoreInternalize(j: Json)
    ensures Restore(Internalize(j)) == j
  {
    match j
    case JArr(items) =>
      var r := Internalize(j);
      forall i | 0 <= i < |items|
        ensures Restore(r).items[i] == items[i]
      {
        IndexKeyNotReportKey(i);
        RestoreInternalize(items[i]);
      }
    case JObj(ms) =>
      var r := Internalize(j);
      forall i | 0 <= i < |ms|
        ensures Restore(r).members[i] == ms[i]
      {
        var (k, v) := ms[i];
        RestoreInternalize(v);
        if k == ReportKey && v.JStr? {
          UnescapeEscape(v.s);
        }
      }
    case _ =>
  }

  /** Every "reportMarkdown" string in the tree is free of backslashes and
      double quotes. */
  predicate EscapeFree(j: Json) {
    match j
    case JArr(items) => forall i :: 0 <= i < |items| ==> EscapeFree(items[i])
    case JObj(ms) =>
      forall i :: 0 <= i < |ms| ==>
        (ms[i].0 == ReportKey && ms[i].1.JStr? ==> '\\' !in ms[i].1.s && '"' !in ms[i].1.s)
        && EscapeFree(ms[i].1)
    case _ => true
  }

  /** The walk returns the tree unchanged exactly when no "reportMarkdown"
      string needs escaping: other keys, non-string "reportMarkdown" values
      and array elements pass through. */
  lemma {:induction false} InternalizeUnchangedIff(j: Json)
    ensures Internalize(j) == j <==> EscapeFree(j)
  {
    match j
    case JArr(items) =>
      var r := Internalize(j);
      forall i | 0 <= i < |items|
        ensures r.items[i] == Internalize(items[i])
      {
        IndexKeyNotReportKey(i);
      }
      forall i | 0 <= i < |items|
        ensures Internalize(items[i]) == items[i] <==> EscapeFree(items[i])
      {
        InternalizeUnchangedIff(items[i]);
      }
      if EscapeFree(j) {
        assert r.items == items;
      }
      if r == j {
        forall i | 0 <= i < |items| ensures EscapeFree(items[i]) {
          assert r.items[i] == items[i];
        }
      }
    case JObj(ms) =>
      var r := Internalize(j);
      forall i | 0 <= i < |ms|
        ensures r.members[i] == ms[i] <==>
          (ms[i].0 == ReportKey && ms[i].1.JStr? ==> '\\' !in ms[i].1.s && '"' !in ms[i].1.s)
          && EscapeFree(ms[i].1)
      {
        var (k, v) := ms[i];
        InternalizeUnchangedIff(v);
        if k == ReportKey && v.JStr? {
          EscapeUnchangedIff(v.s);
        }
      }
      if EscapeFree(j) {
        assert r.members == ms;
      }
      if r == j {
        forall i | 0 <= i < |ms|
          ensures (ms[i].0 == ReportKey && ms[i].1.JStr? ==> '\\' !in ms[i].1.s && '"' !in ms[i].1.s)
            && EscapeFree(ms[i].1)
        {
          assert r.members[i] == ms[i];
        }
      }
    case _ =>
  }
}
