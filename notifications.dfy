/**
 * The notification service: message templates whose text carries `{{ key }}`
 * placeholders, delivery of a notification over its channels in order, and
 * the recording of a notification to be sent later by the cron job.
 */
module Notifications {
  import opened Common
  import Users

  const Email: string := "email"
  const Sms: string := "sms"
  const Push: string := "push"
  const SupportedChannels: seq<string> := [Email, Sms, Push]

  const Pending: string := "pending"
  const Scheduled: string := "scheduled"
  const Sent: string := "sent"
  const Failed: string := "failed"

  /** The values a data object holds, as far as the text substitution looks at them. */
  datatype JsValue = Str(s: string) | Num(n: int) | Boolean(b: bool) | Null

  /** JavaScript truthiness of a value. */
  predicate Truthy(v: JsValue)
  {
    match v
    case Str(s) => s != ""
    case Num(n) => n != 0
    case Boolean(b) => b
    case Null => false
  }

  /** `String(v)`, as the replacement callback's result is inserted into the text. */
  function ToText(v: JsValue): string
  {
    match v
    case Str(s) => s
    case Num(n) => if n < 0 then "-" + DecimalString(-n) else DecimalString(n)
    case Boolean(b) => if b then "true" else "false"
    case Null => "null"
  }

  // ---------------------------------------------------------------------------
  // The placeholder pattern /{{\s*(\w+)\s*}}/g
  // ---------------------------------------------------------------------------

  /** JavaScript's `\s`: ASCII white space, the Unicode space separators, the line terminators and the byte-order mark. */
  predicate Space(c: char)
  {
    var k := c as int;
    (9 <= k <= 13) || k == 0x20 || k == 0xA0 || k == 0x1680 || (0x2000 <= k <= 0x200A)
    || k == 0x2028 || k == 0x2029 || k == 0x202F || k == 0x205F || k == 0x3000 || k == 0xFEFF
  }

  /** JavaScript's `\w`. */
  predicate WordChar(c: char)
  {
    ('a' <= c <= 'z') || ('A' <= c <= 'Z') || ('0' <= c <= '9') || c == '_'
  }

  /** The end of the longest run of characters of a class starting at `i`. */
  function RunEnd(s: string, i: nat, inClass: char -> bool): (j: nat)
    requires i <= |s|
    ensures i <= j <= |s|
    ensures forall k :: i <= k < j ==> inClass(s[k])
    ensures j == |s| || !inClass(s[j])
    decreases |s| - i
  {
    if i < |s| && inClass(s[i]) then RunEnd(s, i + 1, inClass) else i
  }

  /** A match of the placeholder pattern: the captured key and the position just past the closing braces. */
  datatype Placeholder = Placeholder(key: string, end: nat)

  /**
   * Whether the pattern matches at position `i`. `\s` and `\w` share no
   * character and neither holds a brace, so the greedy runs are the only
   * way the pattern can match and no backtracking is needed.
   */
  function MatchAt(text: string, i: nat): (r: Option<Placeholder>)
    requires i <= |text|
    ensures r.Some? ==> i + 5 <= r.value.end <= |text|
    ensures r.Some? ==> text[i] == '{' && text[i + 1] == '{' && text[r.value.end - 2] == '}' && text[r.value.end - 1] == '}'
    ensures r.Some? ==> |r.value.key| >= 1 && forall k :: 0 <= k < |r.value.key| ==> WordChar(r.value.key[k])
    ensures i + 1 < |text| && (text[i] != '{' || text[i + 1] != '{') ==> r.None?
  {
    if i + 2 <= |text| && text[i] == '{' && text[i + 1] == '{' then
      var a := RunEnd(text, i + 2, Space);
      var b := RunEnd(text, a, WordChar);
      var c := RunEnd(text, b, Space);
      if a < b && c + 2 <= |text| && text[c] == '}' && text[c + 1] == '}' then
        Some(Placeholder(text[a..b], c + 2))
      else
        None
    else
      None
  }

  /** What a match becomes: the text of the value under its key when that value is truthy, the match itself otherwise. */
  function Piece(d: map<string, JsValue>, key: string, spelt: string): string
  {
    if key in d && Truthy(d[key]) then ToText(d[key]) else spelt
  }

  /**
   * The global replacement from position `i` on: each match is replaced by
   * the data value under its key when that value is truthy, and kept as it
   * stands otherwise; scanning resumes after the match. Looking a key up in
   * missing data is a TypeError, raised at the first match.
   */
  function ReplaceFrom(text: string, i: nat, data: Option<map<string, JsValue>>): Result<string>
    requires i <= |text|
    decreases |text| - i
  {
    if i == |text| then Ok([])
    else
      match MatchAt(text, i)
      case None =>
        var rest := ReplaceFrom(text, i + 1, data);
        if rest.Err? then rest else Ok([text[i]] + rest.value)
      case Some(p) =>
        if data.None? then Err(TypeError("Cannot read properties of undefined (reading '" + p.key + "')"))
        else
          var rest := ReplaceFrom(text, p.end, data);
          if rest.Err? then rest
          else
            var d := data.value;
            var piece := Piece(d, p.key, text[i..p.end]);
            Ok(piece + rest.value)
  }

  /** replacePlaceholders (notification.service.ts:135-137). */
  function ReplacePlaceholders(text: string, data: Option<map<string, JsValue>>): (r: Result<string>)
    ensures (forall j :: 0 <= j < |text| ==> MatchAt(text, j).None?) ==> r == Ok(text)
    ensures data.None? ==> (r.Ok? <==> forall j :: 0 <= j < |text| ==> MatchAt(text, j).None?)
    ensures data.Some? && (forall k :: k in data.value ==> !Truthy(data.value[k])) ==> r == Ok(text)
    ensures data.Some? ==> forall gs :: (forall k :: 0 <= k < |gs| ==> WellFormedSegment(gs[k])) && Spelled(gs) == text ==>
      r == Ok(Filled(gs, data.value))
  {
    KeptWholeText(text, data);
    MissingDataFailsOnPlaceholder(text, 0);
    EveryCutIsFilled(text, data);
    ReplaceFrom(text, 0, data)
  }

  /** The two cases in which the whole text comes back unchanged. */
  lemma KeptWholeText(text: string, data: Option<map<string, JsValue>>)
    ensures (forall j :: 0 <= j < |text| ==> MatchAt(text, j).None?) ==> ReplaceFrom(text, 0, data) == Ok(text)
    ensures data.Some? && (forall k :: k in data.value ==> !Truthy(data.value[k])) ==> ReplaceFrom(text, 0, data) == Ok(text)
  {
    assert text[0..] == text;
    if forall j :: 0 <= j < |text| ==> MatchAt(text, j).None? {
      NoPlaceholderKeepsText(text, 0, data);
    }
    if data.Some? && (forall k :: k in data.value ==> !Truthy(data.value[k])) {
      FalsyDataKeepsText(text, 0, data.value);
    }
  }

  /** Text in which the pattern matches nowhere from `i` on is returned unchanged, whatever the data. */
  lemma {:induction false} NoPlaceholderKeepsText(text: string, i: nat, data: Option<map<string, JsValue>>)
    requires i <= |text|
    requires forall j :: i <= j < |text| ==> MatchAt(text, j).None?
    ensures ReplaceFrom(text, i, data) == Ok(text[i..])
    decreases |text| - i
  {
    if i < |text| {
      NoPlaceholderKeepsText(text, i + 1, data);
      assert [text[i]] + text[i + 1..] == text[i..];
    }
  }

  /** Without data the replacement succeeds exactly when the text holds no placeholder. */
  lemma {:induction false} MissingDataFailsOnPlaceholder(text: string, i: nat)
    requires i <= |text|
    ensures ReplaceFrom(text, i, None).Ok? <==> forall j :: i <= j < |text| ==> MatchAt(text, j).None?
    decreases |text| - i
  {
    if i < |text| {
      match MatchAt(text, i) {
        case Some(p) =>
          assert ReplaceFrom(text, i, None).Err?;
        case None =>
          MissingDataFailsOnPlaceholder(text, i + 1);
          assert ReplaceFrom(text, i, None).Ok? == ReplaceFrom(text, i + 1, None).Ok?;
      }
    }
  }

  /** When no value in the data is truthy, every placeholder is kept and the text comes back unchanged. */
  lemma {:induction false} FalsyDataKeepsText(text: string, i: nat, d: map<string, JsValue>)
    requires i <= |text|
    requires forall k :: k in d ==> !Truthy(d[k])
    ensures ReplaceFrom(text, i, Some(d)) == Ok(text[i..])
    decreases |text| - i
  {
    if i < |text| {
      match MatchAt(text, i)
      case None =>
        FalsyDataKeepsText(text, i + 1, d);
        assert [text[i]] + text[i + 1..] == text[i..];
      case Some(p) =>
        FalsyDataKeepsText(text, p.end, d);
        KeptMatch(text, i, p, d);
    }
  }

  /** A match whose value is not truthy is kept, and so is the rest when the replacement keeps it. */
  lemma KeptMatch(text: string, i: nat, p: Placeholder, d: map<string, JsValue>)
    requires i < |text| && MatchAt(text, i) == Some(p)
    requires !(p.key in d && Truthy(d[p.key]))
    requires ReplaceFrom(text, p.end, Some(d)) == Ok(text[p.end..])
    ensures ReplaceFrom(text, i, Some(d)) == Ok(text[i..])
  {
    assert text[i..p.end] + text[p.end..] == text[i..];
  }

  /** A text that is one bare placeholder `{{key}}` becomes the key's value when that value is truthy. */
  lemma BarePlaceholderIsReplaced(key: string, d: map<string, JsValue>)
    requires |key| >= 1 && forall k :: 0 <= k < |key| ==> WordChar(key[k])
    requires key in d && Truthy(d[key])
    ensures ReplacePlaceholders("{{" + key + "}}", Some(d)) == Ok(ToText(d[key]))
  {
    var text := "{{" + key + "}}";
    assert !Space(text[2]);
    var a := RunEnd(text, 2, Space);
    assert a == 2;
    var b := RunEnd(text, a, WordChar);
    assert forall k :: 2 <= k < 2 + |key| ==> WordChar(text[k]);
    assert !WordChar(text[2 + |key|]);
    assert b == 2 + |key|;
    var c := RunEnd(text, b, Space);
    assert c == b;
    assert text[a..b] == key;
    assert MatchAt(text, 0) == Some(Placeholder(key, |text|));
    assert ReplaceFrom(text, |text|, Some(d)) == Ok([]);
    assert ReplaceFrom(text, 0, Some(d)) == Ok(ToText(d[key]) + []);
    assert ToText(d[key]) + [] == ToText(d[key]);
  }

  /** Where no `{` occurs between `i` and `k`, that stretch of the text is copied as it stands. */
  lemma {:induction false} PlainStretchIsCopied(text: string, i: nat, k: nat, data: Option<map<string, JsValue>>)
    requires i <= k <= |text|
    requires forall j :: i <= j < k ==> text[j] != '{'
    ensures ReplaceFrom(text, i, data) ==
      var rest := ReplaceFrom(text, k, data);
      if rest.Err? then rest else Ok(text[i..k] + rest.value)
    decreases k - i
  {
    if i < k {
      assert MatchAt(text, i).None?;
      PlainStretchIsCopied(text, i + 1, k, data);
      var rest := ReplaceFrom(text, k, data);
      if rest.Ok? {
        assert [text[i]] + (text[i + 1..k] + rest.value) == text[i..k] + rest.value;
      }
    } else {
      assert text[i..k] == [];
      var rest := ReplaceFrom(text, k, data);
      if rest.Ok? {
        assert text[i..k] + rest.value == rest.value;
      }
    }
  }

  /** A template text cut into stretches without braces and `{{key}}` placeholders. */
  datatype Segment = Plain(chars: string) | Hole(key: string)

  predicate WellFormedSegment(g: Segment)
  {
    match g
    case Plain(chars) => forall k :: 0 <= k < |chars| ==> chars[k] != '{'
    case Hole(key) => |key| >= 1 && forall k :: 0 <= k < |key| ==> WordChar(key[k])
  }

  function HoleText(key: string): string
  {
    "{{" + key + "}}"
  }

  /** The text the segments spell. */
  function Spelled(gs: seq<Segment>): string
  {
    if |gs| == 0 then []
    else (match gs[0] case Plain(chars) => chars case Hole(key) => HoleText(key)) + Spelled(gs[1..])
  }

  /** The independent reading of the substitution: every placeholder is replaced by its truthy value, and kept otherwise. */
  function Filled(gs: seq<Segment>, d: map<string, JsValue>): string
  {
    if |gs| == 0 then []
    else
      (match gs[0]
       case Plain(chars) => chars
       case Hole(key) => Piece(d, key, HoleText(key)))
      + Filled(gs[1..], d)
  }

  /** Where the text from `i` on is `x` followed by `y`, the two parts sit at `i` and `i + |x|`. */
  lemma SplitAt(text: string, i: nat, x: string, y: string)
    requires i <= |text| && text[i..] == x + y
    ensures i + |x| <= |text| && text[i..i + |x|] == x && text[i + |x|..] == y
  {
    assert text[i..][..|x|] == x;
    assert text[i..][|x|..] == y;
    assert text[i..][..|x|] == text[i..i + |x|];
  }

  /** The match at an opening `{{`, spelled out in terms of the ends `a`, `b`, `c` of its three runs. */
  lemma MatchAtOpening(text: string, i: nat, a: nat, b: nat, c: nat)
    requires i + 2 <= |text| && text[i] == '{' && text[i + 1] == '{'
    requires a == RunEnd(text, i + 2, Space) && b == RunEnd(text, a, WordChar) && c == RunEnd(text, b, Space)
    ensures MatchAt(text, i) ==
      if a < b && c + 2 <= |text| && text[c] == '}' && text[c + 1] == '}' then Some(Placeholder(text[a..b], c + 2)) else None
  {
  }

  /** The characters of a placeholder's text. */
  lemma HoleChars(key: string)
    ensures |HoleText(key)| == |key| + 4
    ensures HoleText(key)[0] == '{' && HoleText(key)[1] == '{'
    ensures forall k :: 0 <= k < |key| ==> HoleText(key)[2 + k] == key[k]
    ensures HoleText(key)[2 + |key|] == '}' && HoleText(key)[3 + |key|] == '}'
  {
  }

  /** An opening `{{`, a key and a closing `}}` at position `i` match as that key, whatever follows. */
  lemma HoleMatchesAt(text: string, i: nat, key: string)
    requires WellFormedSegment(Hole(key))
    requires i + |key| + 4 <= |text|
    requires text[i] == '{' && text[i + 1] == '{' && text[i + 2 + |key|] == '}' && text[i + 3 + |key|] == '}'
    requires forall k :: 0 <= k < |key| ==> text[i + 2 + k] == key[k]
    ensures MatchAt(text, i) == Some(Placeholder(key, i + |key| + 4))
  {
    assert text[i + 2] == key[0];
    var a := RunEnd(text, i + 2, Space);
    assert a == i + 2 by {
      assert !Space(key[0]);
    }
    var e := i + 2 + |key|;
    var b := RunEnd(text, a, WordChar);
    forall k | a <= k < e
      ensures WordChar(text[k])
    {
      assert text[k] == key[k - a];
    }
    assert b == e by {
      assert !WordChar(text[e]);
    }
    var c := RunEnd(text, b, Space);
    assert c == b by {
      assert !Space(text[e]);
    }
    assert text[a..b] == key;
    MatchAtOpening(text, i, a, b, c);
  }

  /** The replacement from position `i` succeeds with `out`. */
  predicate Yields(text: string, i: nat, data: Option<map<string, JsValue>>, out: string)
    requires i <= |text|
  {
    ReplaceFrom(text, i, data) == Ok(out)
  }

  /** A brace-free stretch at position `i` is copied in front of what the replacement makes after it. */
  lemma PlainStep(text: string, i: nat, chars: string, tail: string, data: Option<map<string, JsValue>>)
    requires WellFormedSegment(Plain(chars))
    requires i + |chars| <= |text| && text[i..i + |chars|] == chars
    requires Yields(text, i + |chars|, data, tail)
    ensures Yields(text, i, data, chars + tail)
  {
    var k := i + |chars|;
    BraceFreeAt(text, i, chars);
    PlainStretchIsCopied(text, i, k, data);
    assert ReplaceFrom(text, k, data).value == tail && text[i..k] == chars;
  }

  /** A brace-free stretch found at position `i` puts no brace at any of its positions. */
  lemma BraceFreeAt(text: string, i: nat, chars: string)
    requires WellFormedSegment(Plain(chars))
    requires i + |chars| <= |text| && text[i..i + |chars|] == chars
    ensures forall j :: i <= j < i + |chars| ==> text[j] != '{'
  {
    forall j | i <= j < i + |chars|
      ensures text[j] != '{'
    {
      assert text[j] == text[i..i + |chars|][j - i] == chars[j - i];
    }
  }

  /** The characters of a placeholder's text found at position `i`. */
  lemma HoleCharsAt(text: string, i: nat, key: string)
    requires i + |key| + 4 <= |text| && text[i..i + |key| + 4] == HoleText(key)
    ensures text[i] == '{' && text[i + 1] == '{' && text[i + 2 + |key|] == '}' && text[i + 3 + |key|] == '}'
    ensures forall k :: 0 <= k < |key| ==> text[i + 2 + k] == key[k]
  {
    HoleChars(key);
    var s := text[i..i + |key| + 4];
    assert text[i] == s[0] && text[i + 1] == s[1];
    assert text[i + 2 + |key|] == s[2 + |key|] && text[i + 3 + |key|] == s[3 + |key|];
    forall k | 0 <= k < |key|
      ensures text[i + 2 + k] == key[k]
    {
      assert text[i + 2 + k] == s[2 + k];
    }
  }

  /** At a match the replacement is the match's piece in front of what the replacement makes after it. */
  lemma ReplaceAtMatch(text: string, i: nat, key: string, e: nat, spelt: string, tail: string, d: map<string, JsValue>)
    requires i < e <= |text| && MatchAt(text, i) == Some(Placeholder(key, e)) && text[i..e] == spelt
    requires Yields(text, e, Some(d), tail)
    ensures Yields(text, i, Some(d), Piece(d, key, spelt) + tail)
  {
  }

  /** A placeholder's text at position `i` matches as its key. */
  lemma HoleTextMatchesAt(text: string, i: nat, key: string)
    requires WellFormedSegment(Hole(key))
    requires i + |key| + 4 <= |text| && text[i..i + |key| + 4] == HoleText(key)
    ensures MatchAt(text, i) == Some(Placeholder(key, i + |key| + 4))
  {
    HoleCharsAt(text, i, key);
    HoleMatchesAt(text, i, key);
  }

  /** The replacement from position `i` of a text whose rest is spelled by segments. */
  lemma {:induction false} SegmentsAreFilledAt(text: string, i: nat, gs: seq<Segment>, d: map<string, JsValue>)
    requires i <= |text| && text[i..] == Spelled(gs)
    requires forall k :: 0 <= k < |gs| ==> WellFormedSegment(gs[k])
    ensures Yields(text, i, Some(d), Filled(gs, d))
    decreases |gs|, 1
  {
    if |gs| == 0 {
      assert |text[i..]| == 0;
      assert i == |text|;
      assert ReplaceFrom(text, i, Some(d)) == Ok([]);
    } else {
      var more := gs[1..];
      forall k | 0 <= k < |more|
        ensures WellFormedSegment(more[k])
      {
        assert more[k] == gs[k + 1];
      }
      match gs[0]
      case Plain(chars) =>
        assert gs[0] == Plain(chars);
        assert Spelled(gs) == chars + Spelled(more);
        assert Filled(gs, d) == chars + Filled(more, d);
        PlainThenSegments(text, i, chars, more, d);
      case Hole(key) =>
        assert gs[0] == Hole(key);
        assert Spelled(gs) == HoleText(key) + Spelled(more);
        assert Filled(gs, d) == Piece(d, key, HoleText(key)) + Filled(more, d);
        HoleThenSegments(text, i, key, more, d);
    }
  }

  /** A brace-free stretch followed by segments is the stretch followed by their replacement. */
  lemma {:induction false} PlainThenSegments(text: string, i: nat, chars: string, more: seq<Segment>, d: map<string, JsValue>)
    requires WellFormedSegment(Plain(chars))
    requires forall k :: 0 <= k < |more| ==> WellFormedSegment(more[k])
    requires i <= |text| && text[i..] == chars + Spelled(more)
    ensures Yields(text, i, Some(d), chars + Filled(more, d))
    decreases |more| + 1, 0
  {
    SplitAt(text, i, chars, Spelled(more));
    SegmentsAreFilledAt(text, i + |chars|, more, d);
    PlainStep(text, i, chars, Filled(more, d), Some(d));
  }

  /** A placeholder followed by segments is its replacement followed by theirs. */
  lemma {:induction false} HoleThenSegments(text: string, i: nat, key: string, more: seq<Segment>, d: map<string, JsValue>)
    requires WellFormedSegment(Hole(key))
    requires forall k :: 0 <= k < |more| ==> WellFormedSegment(more[k])
    requires i <= |text| && text[i..] == HoleText(key) + Spelled(more)
    ensures Yields(text, i, Some(d), Piece(d, key, HoleText(key)) + Filled(more, d))
    decreases |more| + 1, 0
  {
    HoleChars(key);
    SplitAt(text, i, HoleText(key), Spelled(more));
    SegmentsAreFilledAt(text, i + |key| + 4, more, d);
    HoleTextMatchesAt(text, i, key);
    ReplaceAtMatch(text, i, key, i + |key| + 4, HoleText(key), Filled(more, d), d);
  }

  /**
   * The substitution over any text built of brace-free stretches and
   * placeholders is the segment-by-segment replacement: each placeholder,
   * wherever it stands, becomes its value's text when that value is truthy
   * and stays as written otherwise; everything else is copied.
   */
  lemma EveryCutIsFilled(text: string, data: Option<map<string, JsValue>>)
    ensures data.Some? ==> forall gs :: (forall k :: 0 <= k < |gs| ==> WellFormedSegment(gs[k])) && Spelled(gs) == text ==>
      ReplaceFrom(text, 0, data) == Ok(Filled(gs, data.value))
  {
    if data.Some? {
      forall gs | (forall k :: 0 <= k < |gs| ==> WellFormedSegment(gs[k])) && Spelled(gs) == text
        ensures ReplaceFrom(text, 0, data) == Ok(Filled(gs, data.value))
      {
        assert text[0..] == text;
        SegmentsAreFilledAt(text, 0, gs, data.value);
      }
    }
  }

  /** One placeholder inside brace-free text: the text around it is kept and the placeholder becomes its truthy value. */
  lemma EmbeddedPlaceholderIsReplaced(u: string, key: string, v: string, d: map<string, JsValue>)
    requires forall k :: 0 <= k < |u| ==> u[k] != '{'
    requires forall k :: 0 <= k < |v| ==> v[k] != '{'
    requires |key| >= 1 && forall k :: 0 <= k < |key| ==> WordChar(key[k])
    requires key in d && Truthy(d[key])
    ensures ReplacePlaceholders(u + "{{" + key + "}}" + v, Some(d)) == Ok(u + ToText(d[key]) + v)
  {
    var text := u + "{{" + key + "}}" + v;
    var gs := [Plain(u), Hole(key), Plain(v)];
    ThreeSegments(u, key, v, d);
    assert text[0..] == text;
    SegmentsAreFilledAt(text, 0, gs, d);
  }

  /** Brace-free text, a placeholder and brace-free text, as segments. */
  lemma ThreeSegments(u: string, key: string, v: string, d: map<string, JsValue>)
    requires forall k :: 0 <= k < |u| ==> u[k] != '{'
    requires forall k :: 0 <= k < |v| ==> v[k] != '{'
    requires |key| >= 1 && forall k :: 0 <= k < |key| ==> WordChar(key[k])
    requires key in d && Truthy(d[key])
    ensures var gs := [Plain(u), Hole(key), Plain(v)];
      (forall k :: 0 <= k < |gs| ==> WellFormedSegment(gs[k]))
      && Spelled(gs) == u + "{{" + key + "}}" + v && Filled(gs, d) == u + ToText(d[key]) + v
  {
    var gs := [Plain(u), Hole(key), Plain(v)];
    assert gs[1..] == [Hole(key), Plain(v)];
    assert gs[1..][1..] == [Plain(v)];
    assert gs[1..][1..][1..] == [];
    assert Spelled([Plain(v)]) == v by { assert v + [] == v; }
    assert Filled([Plain(v)], d) == v by { assert v + [] == v; }
    assert Spelled(gs) == u + (HoleText(key) + v);
    assert Filled(gs, d) == u + (ToText(d[key]) + v);
    assert u + (HoleText(key) + v) == u + "{{" + key + "}}" + v;
    assert u + (ToText(d[key]) + v) == u + ToText(d[key]) + v;
  }

  // ---------------------------------------------------------------------------
  // Channels and delivery
  // ---------------------------------------------------------------------------

  /** The first channel that is not one of email, sms and push. */
  function FirstUnsupported(channels: seq<string>): (r: Option<nat>)
    ensures r.None? <==> forall k :: 0 <= k < |channels| ==> channels[k] in SupportedChannels
    ensures r.Some? ==> r.value < |channels| && channels[r.value] !in SupportedChannels
    ensures r.Some? ==> forall k :: 0 <= k < r.value ==> channels[k] in SupportedChannels
  {
    if |channels| == 0 then None
    else if channels[0] !in SupportedChannels then Some(0)
    else
      match FirstUnsupported(channels[1..])
      case None => None
      case Some(k) => Some(k + 1)
  }

  /** A message template (template.storage.ts); the subject is optional. */
  datatype Template = Template(subject: Option<string>, content: string, channels: seq<string>)

  /** What a channel provider was handed for one successful send. */
  datatype Delivery = Delivery(channel: string, recipient: string, subject: Option<string>, content: string)

  /**
   * The channel providers: given channel, recipient, subject and content,
   * the message of the error the provider throws, or `None` when it delivers.
   */
  type Deliver = (string, string, Option<string>, string) -> Option<string>

  /**
   * The fixed part of one sendNotification call: the recipient, whether a
   * failure ends the run, and the template's texts with the data
   * substituted. sendViaChannel substitutes them anew for each channel; the
   * substitution depends on the template and the data alone, so every
   * channel sees the same texts.
   */
  datatype Job = Job(recipient: string, stopOnFailure: bool, content: Result<string>, subject: Result<Option<string>>)

  /**
   * The texts sendViaChannel substitutes (notification.service.ts:118-121):
   * the content, and the subject when it is a non-empty string. The
   * substitution is written as `ReplaceFrom` from position 0, which is what
   * `ReplacePlaceholders` computes (`JobTextsAreSubstituted`); this keeps
   * that function's contract out of the proofs about sends.
   */
  function NewJob(template: Template, recipient: string, data: Option<map<string, JsValue>>, stopOnFailure: bool): Job
  {
    var subject: Result<Option<string>> :=
      if template.subject.Some? && template.subject.value != "" then
        var s := ReplaceFrom(template.subject.value, 0, data);
        if s.Ok? then Ok(Some(s.value)) else Err(s.error)
      else Ok(None);
    Job(recipient, stopOnFailure, ReplaceFrom(template.content, 0, data), subject)
  }

  /** A job carries the template's texts as replacePlaceholders leaves them. */
  lemma JobTextsAreSubstituted(template: Template, recipient: string, data: Option<map<string, JsValue>>, stopOnFailure: bool)
    ensures NewJob(template, recipient, data, stopOnFailure).content == ReplacePlaceholders(template.content, data)
    ensures template.subject.Some? && template.subject.value != "" ==>
      NewJob(template, recipient, data, stopOnFailure).subject ==
        (var s := ReplacePlaceholders(template.subject.value, data); if s.Ok? then Ok(Some(s.value)) else Err(s.error))
    ensures !(template.subject.Some? && template.subject.value != "") ==>
      NewJob(template, recipient, data, stopOnFailure).subject == Ok(None)
  {
  }

  datatype Attempted = Delivered(delivery: Delivery) | Threw(message: string)

  /**
   * sendViaChannel (notification.service.ts:112-133): a failed substitution
   * of the content, then of the subject, throws; otherwise the provider of
   * the channel is called. Only the e-mail provider is handed the subject;
   * sms and push receive the content alone.
   */
  function Attempt(channel: string, job: Job, deliver: Deliver): Attempted
  {
    if job.content.Err? then Threw(job.content.error.message)
    else if job.subject.Err? then Threw(job.subject.error.message)
    else if channel !in SupportedChannels then Threw("Unsupported channel: " + channel)
    else
      var handed := if channel == Email then job.subject.value else None;
      match deliver(channel, job.recipient, handed, job.content.value)
      case None => Delivered(Delivery(channel, job.recipient, handed, job.content.value))
      case Some(message) => Threw(message)
  }

  /** The sends the channels from `i` on make: a failure ends the run when `stopOnFailure` is set and is skipped otherwise. */
  function DeliveriesFrom(channels: seq<string>, i: nat, job: Job, deliver: Deliver): (r: seq<Delivery>)
    requires i <= |channels|
    ensures |r| <= |channels| - i
    ensures forall k :: 0 <= k < |r| ==> r[k].recipient == job.recipient
    decreases |channels| - i
  {
    if i == |channels| then []
    else
      match Attempt(channels[i], job, deliver)
      case Delivered(d) => [d] + DeliveriesFrom(channels, i + 1, job, deliver)
      case Threw(_) => if job.stopOnFailure then [] else DeliveriesFrom(channels, i + 1, job, deliver)
  }

  /** A send made for `job`: it carries the substituted content, and the subject only when it is an e-mail. */
  predicate CarriesTexts(s: Delivery, job: Job)
  {
    job.content.Ok? && job.subject.Ok? && s.content == job.content.value
    && s.subject == (if s.channel == Email then job.subject.value else None)
  }

  /** Every send carries the job's substituted content; only an e-mail send carries the subject. */
  lemma {:induction false} SendsCarryTheTexts(channels: seq<string>, i: nat, job: Job, deliver: Deliver)
    requires i <= |channels|
    ensures forall k :: 0 <= k < |DeliveriesFrom(channels, i, job, deliver)| ==>
      CarriesTexts(DeliveriesFrom(channels, i, job, deliver)[k], job)
    decreases |channels| - i
  {
    if i < |channels| {
      SendsCarryTheTexts(channels, i + 1, job, deliver);
      var rest := DeliveriesFrom(channels, i + 1, job, deliver);
      match Attempt(channels[i], job, deliver)
      case Delivered(d) =>
        assert CarriesTexts(d, job);
        assert DeliveriesFrom(channels, i, job, deliver) == [d] + rest;
      case Threw(_) =>
    }
  }

  /** The error a notification fails with when its channels from `i` on are tried: the first one, and only under `stopOnFailure`. */
  function FailureFrom(channels: seq<string>, i: nat, job: Job, deliver: Deliver): (r: Option<string>)
    requires i <= |channels|
    ensures r.Some? ==> job.stopOnFailure
    ensures r.None? <==>
      (!job.stopOnFailure || forall k :: i <= k < |channels| ==> Attempt(channels[k], job, deliver).Delivered?)
    ensures r.Some? ==> exists k :: i <= k < |channels| && Attempt(channels[k], job, deliver) == Threw(r.value)
    decreases |channels| - i
  {
    if i == |channels| then None
    else
      match Attempt(channels[i], job, deliver)
      case Delivered(_) => FailureFrom(channels, i + 1, job, deliver)
      case Threw(m) => if job.stopOnFailure then Some(m) else FailureFrom(channels, i + 1, job, deliver)
  }

  /** When nothing fails, every channel from `i` on receives the notification, in order. */
  lemma {:induction false} NoFailureReachesEveryChannel(channels: seq<string>, i: nat, job: Job, deliver: Deliver)
    requires i <= |channels|
    requires forall k :: i <= k < |channels| ==> Attempt(channels[k], job, deliver).Delivered?
    ensures |DeliveriesFrom(channels, i, job, deliver)| == |channels| - i
    ensures forall k :: 0 <= k < |channels| - i ==>
      DeliveriesFrom(channels, i, job, deliver)[k] == Attempt(channels[i + k], job, deliver).delivery
    decreases |channels| - i
  {
    if i < |channels| {
      NoFailureReachesEveryChannel(channels, i + 1, job, deliver);
    }
  }

  /** Under stopOnFailure no channel after the failing one is tried: the sends are those of the channels before it. */
  lemma {:induction false} FailureStopsLaterChannels(channels: seq<string>, i: nat, j: nat, job: Job, deliver: Deliver)
    requires i <= j < |channels| && job.stopOnFailure
    requires forall k :: i <= k < j ==> Attempt(channels[k], job, deliver).Delivered?
    requires Attempt(channels[j], job, deliver).Threw?
    ensures |DeliveriesFrom(channels, i, job, deliver)| == j - i
    ensures FailureFrom(channels, i, job, deliver) == Some(Attempt(channels[j], job, deliver).message)
    decreases j - i
  {
    if i < j {
      FailureStopsLaterChannels(channels, i + 1, j, job, deliver);
    }
  }

  // ---------------------------------------------------------------------------
  // Notification records
  // ---------------------------------------------------------------------------

  /** The json `data` column: absent, an object, or a string still to be parsed. */
  datatype Payload = Missing | Object(fields: map<string, JsValue>) | Serialized(text: string)

  /** A row of the Notifications table (notification.entity.ts:12-50), without the id (its position) and the creation time. */
  datatype Notification = Notification(
    templateId: string,
    recipient: string,
    data: Payload,
    channels: seq<string>,
    scheduledAt: Option<int>,
    status: string,
    error: Option<string>,
    visibility: string,
    userId: Option<int>)

  function PayloadOf(data: Option<map<string, JsValue>>): Payload
  {
    if data.Some? then Object(data.value) else Missing
  }

  /** The checks sendNotification makes before it saves anything; on success, the channels it will use. */
  function SendCheck(templates: map<string, Template>, templateId: string, channels: Option<seq<string>>): (r: Result<seq<string>>)
    ensures templateId !in templates ==> r == Err(Failure("Template " + templateId + " not found"))
    ensures templateId in templates ==>
      var chans := if channels.Some? then channels.value else templates[templateId].channels;
      (r.Ok? <==> FirstUnsupported(chans).None?)
      && (r.Ok? ==> r.value == chans)
      && (r.Err? ==> r.error == Failure("Unsupported channel: " + chans[FirstUnsupported(chans).value]))
  {
    if templateId !in templates then Err(Failure("Template " + templateId + " not found"))
    else
      var chans := if channels.Some? then channels.value else templates[templateId].channels;
      match FirstUnsupported(chans)
      case Some(k) => Err(Failure("Unsupported channel: " + chans[k]))
      case None => Ok(chans)
  }

  /** The record sendNotification leaves behind once its channels have been tried. */
  function SentRecord(templateId: string, recipient: string, data: Option<map<string, JsValue>>,
                      channels: seq<string>, failure: Option<string>): Notification
  {
    Notification(templateId, recipient, PayloadOf(data), channels, None,
                 if failure.None? then Sent else Failed, failure, "public", None)
  }

  /** When a notification is to go out: a timestamp, no date at all, or a date that does not parse. */
  datatype ScheduleDate = At(ms: int) | NoDate | InvalidDate

  /**
   * prepareNotificationData (notification.service.ts:158-164): the data
   * object with `subject` and `content` set to the substituted template
   * texts. A template without a subject makes the substitution read
   * `replace` of undefined.
   */
  function PrepareData(t: Template, data: Option<map<string, JsValue>>): (r: Result<map<string, JsValue>>)
    ensures t.subject.None? ==> r == Err(TypeError("Cannot read properties of undefined (reading 'replace')"))
    ensures r.Ok? <==>
      t.subject.Some? && ReplacePlaceholders(t.subject.value, data).Ok? && ReplacePlaceholders(t.content, data).Ok?
    ensures r.Ok? ==> "subject" in r.value && "content" in r.value
    ensures r.Ok? ==>
      r.value["subject"] == Str(ReplacePlaceholders(t.subject.value, data).value)
      && r.value["content"] == Str(ReplacePlaceholders(t.content, data).value)
    ensures r.Ok? ==> forall k :: k in r.value && k != "subject" && k != "content" ==>
      data.Some? && k in data.value && r.value[k] == data.value[k]
    ensures r.Ok? && data.Some? ==> forall k :: k in data.value ==> k in r.value
  {
    var base := if data.Some? then data.value else map[];
    if t.subject.None? then Err(TypeError("Cannot read properties of undefined (reading 'replace')"))
    else
      var subject := ReplacePlaceholders(t.subject.value, data);
      if subject.Err? then Err(subject.error)
      else
        var content := ReplacePlaceholders(t.content, data);
        if content.Err? then Err(content.error)
        else Ok(base["subject" := Str(subject.value)]["content" := Str(content.value)])
  }

  /** The id getUserById looks up: an undefined id drops the condition, and the first row is returned. */
  function LookupId(userId: Option<int>): int
  {
    if userId.Some? then userId.value else 1
  }

  class NotificationService {
    const users: Users.UsersService
    /** The template storage, fixed at start-up. */
    const templates: map<string, Template>
    /** The Notifications table, in insertion order. */
    var records: seq<Notification>
    /** Everything handed to the email, sms and push providers, in order. */
    var outbox: seq<Delivery>

    constructor(users: Users.UsersService, templates: map<string, Template>)
      ensures this.users == users && this.templates == templates
      ensures records == [] && outbox == []
    {
      this.users := users;
      this.templates := templates;
      records := [];
      outbox := [];
    }

    /** validateChannels (notification.service.ts:42-49): the first unsupported channel is reported. */
    method ValidateChannels(channels: seq<string>) returns (r: Result<()>)
      ensures r.Ok? <==> FirstUnsupported(channels).None?
      ensures r.Err? ==> r.error == Failure("Unsupported channel: " + channels[FirstUnsupported(channels).value])
    {
      var i := 0;
      while i < |channels|
        invariant 0 <= i <= |channels|
        invariant forall k :: 0 <= k < i ==> channels[k] in SupportedChannels
      {
        if channels[i] !in SupportedChannels {
          FirstUnsupportedIsFirst(channels, i);
          return Err(Failure("Unsupported channel: " + channels[i]));
        }
        i := i + 1;
      }
      r := Ok(());
    }

    /** The delivery loop of sendNotification (notification.service.ts:88-101). */
    method DeliverAll(chans: seq<string>, job: Job, deliver: Deliver) returns (failure: Option<string>)
      modifies this
      ensures records == old(records)
      ensures outbox == old(outbox) + DeliveriesFrom(chans, 0, job, deliver)
      ensures failure == FailureFrom(chans, 0, job, deliver)
    {
      failure := None;
      var i := 0;
      while i < |chans| && failure.None?
        invariant 0 <= i <= |chans|
        invariant records == old(records)
        invariant failure.None? ==>
          old(outbox) + DeliveriesFrom(chans, 0, job, deliver) == outbox + DeliveriesFrom(chans, i, job, deliver)
          && FailureFrom(chans, 0, job, deliver) == FailureFrom(chans, i, job, deliver)
        invariant failure.Some? ==>
          old(outbox) + DeliveriesFrom(chans, 0, job, deliver) == outbox
          && FailureFrom(chans, 0, job, deliver) == failure
        decreases |chans| - i
      {
        match Attempt(chans[i], job, deliver) {
        case Delivered(d) =>
          assert outbox + DeliveriesFrom(chans, i, job, deliver) == (outbox + [d]) + DeliveriesFrom(chans, i + 1, job, deliver);
          outbox := outbox + [d];
        case Threw(m) =>
          if job.stopOnFailure {
            assert DeliveriesFrom(chans, i, job, deliver) == [];
            assert outbox + [] == outbox;
            failure := Some(m);
          }
        }
        i := i + 1;
      }
      if failure.None? {
        assert outbox + [] == outbox;
      }
    }

    /**
     * sendNotification (notification.service.ts:63-110): after the template
     * and channel checks a pending row is saved; the channels are tried in
     * order, and the row ends sent, or failed with the message of the first
     * failure when `stopOnFailure` is set. A failed send is recorded, not
     * raised.
     */
    method SendNotification(templateId: string, recipient: string, data: Option<map<string, JsValue>>,
                            channels: Option<seq<string>>, stopOnFailure: bool, deliver: Deliver)
      returns (r: Result<Notification>)
      modifies this
      ensures SendCheck(templates, templateId, channels).Err? ==>
        r == Err(SendCheck(templates, templateId, channels).error)
        && records == old(records) && outbox == old(outbox)
      ensures SendCheck(templates, templateId, channels).Ok? ==>
        var chans := SendCheck(templates, templateId, channels).value;
        var job := NewJob(templates[templateId], recipient, data, stopOnFailure);
        records == old(records) + [SentRecord(templateId, recipient, data, chans, FailureFrom(chans, 0, job, deliver))]
        && outbox == old(outbox) + DeliveriesFrom(chans, 0, job, deliver)
        && r == Ok(records[|records| - 1])
    {
      if templateId !in templates {
        return Err(Failure("Template " + templateId + " not found"));
      }
      var t := templates[templateId];
      var chans := if channels.Some? then channels.value else t.channels;
      var check := ValidateChannels(chans);
      if check.Err? {
        return Err(check.error);
      }
      var job := NewJob(t, recipient, data, stopOnFailure);
      var saved := SaveAndDeliver(templateId, recipient, data, chans, job, deliver);
      r := Ok(saved);
    }

    /** The part of a send after its checks: the pending row, the deliveries, and the row's final state. */
    method SaveAndDeliver(templateId: string, recipient: string, data: Option<map<string, JsValue>>,
                          chans: seq<string>, job: Job, deliver: Deliver) returns (saved: Notification)
      modifies this
      ensures records == old(records) + [SentRecord(templateId, recipient, data, chans, FailureFrom(chans, 0, job, deliver))]
      ensures outbox == old(outbox) + DeliveriesFrom(chans, 0, job, deliver)
      ensures saved == records[|records| - 1]
    {
      var pending := Notification(templateId, recipient, PayloadOf(data), chans, None, Pending, None, "public", None);
      records := records + [pending];
      var failure := DeliverAll(chans, job, deliver);
      saved := SentRecord(templateId, recipient, data, chans, failure);
      records := records[|records| - 1 := saved];
    }

    /**
     * scheduleNotification (notification.service.ts:166-209): the date must
     * lie after `now`, then it must be a valid date, then the template must
     * exist; the data is prepared, and a private notification goes to the
     * e-mail of the user looked up by id, any other to "all". The channels
     * are stored unchecked, by default email alone.
     */
    method ScheduleNotification(templateId: string, recipient: string, scheduledAt: ScheduleDate, now: int,
                                data: Option<map<string, JsValue>>, visibility: Option<string>,
                                userId: Option<int>, channels: Option<seq<string>>)
      returns (r: Result<Notification>)
      modifies this
      ensures r.Err? ==> records == old(records)
      ensures outbox == old(outbox)
      ensures scheduledAt.At? && scheduledAt.ms <= now ==> r == Err(Failure("Scheduled date must be in the future"))
      ensures !scheduledAt.At? ==> r == Err(BadRequest("Invalid schedule date"))
      ensures (scheduledAt.At? && now < scheduledAt.ms && templateId !in templates) ==>
        r == Err(Failure("Template not found"))
      ensures (scheduledAt.At? && now < scheduledAt.ms && templateId in templates
        && PrepareData(templates[templateId], data).Err?) ==>
        r == Err(PrepareData(templates[templateId], data).error)
      ensures (scheduledAt.At? && now < scheduledAt.ms && templateId in templates
        && PrepareData(templates[templateId], data).Ok? && visibility == Some("private")
        && users.Find(LookupId(userId)).None?) ==>
        r == Err(NotFound("User not found"))
      ensures r.Ok? ==>
        scheduledAt.At? && now < scheduledAt.ms && templateId in templates
        && PrepareData(templates[templateId], data).Ok?
        && records == old(records) + [r.value]
        && r.value == Notification(
             templateId,
             if visibility == Some("private") then users.Find(LookupId(userId)).value.email else "all",
             Object(PrepareData(templates[templateId], data).value),
             if channels.Some? then channels.value else [Email],
             Some(scheduledAt.ms), Scheduled, None,
             if visibility.Some? then visibility.value else "public",
             userId)
      ensures (scheduledAt.At? && now < scheduledAt.ms && templateId in templates
        && PrepareData(templates[templateId], data).Ok?
        && (visibility == Some("private") ==> users.Find(LookupId(userId)).Some?)) ==>
        r.Ok?
    {
      if scheduledAt.At? && scheduledAt.ms <= now {
        return Err(Failure("Scheduled date must be in the future"));
      }
      if !scheduledAt.At? {
        return Err(BadRequest("Invalid schedule date"));
      }
      if templateId !in templates {
        return Err(Failure("Template not found"));
      }
      var prepared := PrepareData(templates[templateId], data);
      if prepared.Err? {
        return Err(prepared.error);
      }
      var to := "all";
      if visibility == Some("private") {
        var user := users.Find(LookupId(userId));
        if user.None? {
          return Err(NotFound("User not found"));
        }
        to := user.value.email;
      }
      var n := Notification(templateId, to, Object(prepared.value),
                            if channels.Some? then channels.value else [Email],
                            Some(scheduledAt.ms), Scheduled, None,
                            if visibility.Some? then visibility.value else "public", userId);
      records := records + [n];
      r := Ok(n);
    }

    /** Writes one row back by its id (the repository's save of a loaded row). */
    method Store(id: nat, n: Notification)
      requires id < |records|
      modifies this
      ensures records == old(records)[id := n] && outbox == old(outbox)
    {
      records := records[id := n];
    }
  }

  /** The first unsupported channel is the one the validation loop stops at. */
  lemma {:induction false} FirstUnsupportedIsFirst(channels: seq<string>, i: nat)
    requires i < |channels| && channels[i] !in SupportedChannels
    requires forall k :: 0 <= k < i ==> channels[k] in SupportedChannels
    ensures FirstUnsupported(channels) == Some(i)
    decreases i
  {
    if i > 0 {
      FirstUnsupportedIsFirst(channels[1..], i - 1);
    }
  }
}
