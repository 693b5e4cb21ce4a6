/**
 * The model client of lib/openai.ts: the memoised client, and the
 * post-processing of a completion into insights — fence stripping, the
 * extraction of the outermost `{ … }` span and the shape check. The
 * completion call itself, and `JSON.parse`, are parameters.
 */
module OpenAi {
  import opened Common
  import AiRules

  // ---------------------------------------------------------------------------
  // The memoised client
  // ---------------------------------------------------------------------------

  /** A client stands for the API key it was created with. */
  datatype Client = Client(apiKey: string)

  /** One call of `getOpenAIClient`, given the module-level `client` and the configured key:
      the client returned and the new value of `client`. */
  function Resolve(current: Option<Client>, key: Option<string>): (Option<Client>, Option<Client>) {
    if current.Some? then (current, current)
    else if key.None? || key.value == "" then (None, None)
    else (Some(Client(key.value)), Some(Client(key.value)))
  }

  class ClientMemo {
    var client: Option<Client>

    constructor()
      ensures client == None
    {
      client := None;
    }

    /** `getOpenAIClient()`; `key` is `process.env.OPENAI_API_KEY`. */
    method GetClient(key: Option<string>) returns (r: Option<Client>)
      modifies this
      ensures (r, client) == Resolve(old(client), key)
    {
      if client.Some? {
        return client;
      }
      if key.None? || key.value == "" {
        return None;
      }
      client := Some(Client(key.value));
      r := client;
    }
  }

  /** The returned client is always the memoised one; with no client yet and no key, there
      is none; once a client exists, every later call returns it whatever the key. */
  lemma ResolveMemoises(current: Option<Client>, key: Option<string>, laterKey: Option<string>)
    ensures Resolve(current, key).0 == Resolve(current, key).1
    ensures current.None? ==> (Resolve(current, key).0.None? <==> key.None? || key.value == "")
    ensures Resolve(current, key).1.Some? ==>
      Resolve(Resolve(current, key).1, laterKey) == (Resolve(current, key).0, Resolve(current, key).1)
    ensures current.Some? ==> Resolve(current, key).0 == current
  {
  }

  // ---------------------------------------------------------------------------
  // sanitizeModelOutput
  // ---------------------------------------------------------------------------

  /** `\w`: an ASCII letter, digit or underscore. */
  predicate IsWordChar(c: char) {
    ('a' <= c <= 'z') || ('A' <= c <= 'Z') || ('0' <= c <= '9') || c == '_'
  }

  predicate StartsFence(s: string) {
    |s| >= 3 && s[0] == '`' && s[1] == '`' && s[2] == '`'
  }

  /** Three back-ticks in a row start at position `i` of `s`. */
  predicate FenceAt(s: string, i: nat) {
    i + 3 <= |s| && s[i] == '`' && s[i + 1] == '`' && s[i + 2] == '`'
  }

  predicate NoFence(s: string) {
    forall i: nat :: i < |s| ==> !FenceAt(s, i)
  }

  /** The greedy `(?:\w+)?` after a fence. */
  function DropWord(s: string): (r: string)
    ensures |r| <= |s| && r == s[|s| - |r|..]
    ensures r == [] || !IsWordChar(r[0])
    ensures forall i :: 0 <= i < |s| - |r| ==> IsWordChar(s[i])
  {
    if s != [] && IsWordChar(s[0]) then DropWord(s[1..]) else s
  }

  /** `text.replace(/```(?:\w+)?/g, "")`: matches are found left to right and do not overlap. */
  function StripFences(s: string): (r: string)
    decreases |s|
  {
    if StartsFence(s) then StripFences(DropWord(s[3..]))
    else if s == [] then []
    else [s[0]] + StripFences(s[1..])
  }

  /** `sanitizeModelOutput`. */
  function Sanitize(text: string): string {
    Trim(StripFences(text))
  }

  /** Stripping leaves no fence behind, only deletes characters, and leaves a text without
      back-ticks unchanged. */
  lemma StripFencesMeaning(s: string)
    ensures NoFence(StripFences(s))
    ensures Subseq(StripFences(s), s)
    ensures '`' !in s ==> StripFences(s) == s
  {
    StripFencesNoFence(s);
    StripFencesSubseq(s);
    if '`' !in s {
      StripFencesIdentity(s);
    }
  }

  lemma {:induction false} StripFencesNoFence(s: string)
    ensures NoFence(StripFences(s))
    decreases |s|
  {
    if StartsFence(s) {
      StripFencesNoFence(DropWord(s[3..]));
    } else if s != [] {
      StripFencesNoFence(s[1..]);
      NoFenceAtFront(s);
      ConsNoFence(s[0], StripFences(s[1..]));
    }
  }

  lemma ConsNoFence(c: char, t: string)
    requires NoFence(t) && !FenceAt([c] + t, 0)
    ensures NoFence([c] + t)
  {
    var r := [c] + t;
    forall i: nat | i < |r|
      ensures !FenceAt(r, i)
    {
      if i > 0 {
        assert !FenceAt(t, i - 1);
      }
    }
  }

  lemma {:induction false} StripFencesSubseq(s: string)
    ensures Subseq(StripFences(s), s)
    decreases |s|
  {
    if StartsFence(s) {
      var rest := DropWord(s[3..]);
      StripFencesSubseq(rest);
      assert rest == s[|s| - |rest|..];
      SubseqOfSuffix(StripFences(rest), s, |s| - |rest|);
    } else if s != [] {
      StripFencesSubseq(s[1..]);
      assert ([s[0]] + StripFences(s[1..]))[1..] == StripFences(s[1..]);
    }
  }

  lemma {:induction false} StripFencesIdentity(s: string)
    requires '`' !in s
    ensures StripFences(s) == s
    decreases |s|
  {
    if s != [] {
      assert !StartsFence(s) && '`' !in s[1..];
      StripFencesIdentity(s[1..]);
    }
  }

  /** The first character kept from `s[1..]` cannot complete a fence with `s[0]`. */
  lemma NoFenceAtFront(s: string)
    requires s != [] && !StartsFence(s)
    ensures !FenceAt([s[0]] + StripFences(s[1..]), 0)
  {
    var tail := StripFences(s[1..]);
    if s[0] == '`' && |s| >= 2 {
      if s[1] != '`' {
        assert tail[0] == s[1];
      } else if |s| == 2 {
        assert |tail| == 1;
      } else {
        assert s[2] != '`';
        assert !StartsFence(s[1..]) && s[1..][1..] == s[2..];
        assert tail == [s[1]] + StripFences(s[2..]);
        assert tail[1] == s[2];
      }
    }
  }

  lemma {:induction false} SubseqOfSuffix(r: string, s: string, k: nat)
    requires k <= |s|
    requires Subseq(r, s[k..])
    ensures Subseq(r, s)
    decreases k
  {
    if k > 0 {
      assert s[1..][k - 1..] == s[k..];
      SubseqOfSuffix(r, s[1..], k - 1);
    }
  }

  lemma NoFenceSlice(s: string, a: nat, b: nat)
    requires NoFence(s) && a <= b <= |s|
    ensures NoFence(s[a..b])
  {
    forall i: nat | i < b - a
      ensures !FenceAt(s[a..b], i)
    {
      assert !FenceAt(s, a + i);
    }
  }

  lemma TrimKeepsNoFence(s: string)
    requires NoFence(s)
    ensures NoFence(Trim(s))
  {
    var t := TrimStart(s);
    assert t == s[|s| - |t|..|s|];
    NoFenceSlice(s, |s| - |t|, |s|);
    var r := TrimEnd(t);
    assert r == t[0..|r|];
    NoFenceSlice(t, 0, |r|);
  }

  /** The sanitised text holds no fence, is already trimmed, and is just the trimmed text
      when there is no back-tick in it. */
  lemma SanitizeMeaning(text: string)
    ensures NoFence(Sanitize(text))
    ensures Trim(Sanitize(text)) == Sanitize(text)
    ensures '`' !in text ==> Sanitize(text) == Trim(text)
  {
    StripFencesMeaning(text);
    TrimKeepsNoFence(StripFences(text));
    TrimIdempotent(StripFences(text));
  }

  // ---------------------------------------------------------------------------
  // extractJson
  // ---------------------------------------------------------------------------

  /** `indexOf`: -1 when absent. */
  function FirstIndex(s: string, c: char): (r: int)
    ensures -1 <= r < |s|
    ensures r == -1 ==> forall k :: 0 <= k < |s| ==> s[k] != c
    ensures r >= 0 ==> s[r] == c && forall k :: 0 <= k < r ==> s[k] != c
  {
    if s == [] then -1
    else if s[0] == c then 0
    else
      var k := FirstIndex(s[1..], c);
      if k == -1 then -1 else k + 1
  }

  /** `lastIndexOf`: -1 when absent. */
  function LastIndex(s: string, c: char): (r: int)
    ensures -1 <= r < |s|
    ensures r == -1 ==> forall k :: 0 <= k < |s| ==> s[k] != c
    ensures r >= 0 ==> s[r] == c && forall k :: r < k < |s| ==> s[k] != c
  {
    if s == [] then -1
    else if s[|s| - 1] == c then |s| - 1
    else LastIndex(s[..|s| - 1], c)
  }

  /** The candidate of `extractJson`: the span from the first `{` to the last `}`. */
  function ExtractSpan(text: string): Option<string> {
    var start := FirstIndex(text, '{');
    var end := LastIndex(text, '}');
    if start == -1 || end == -1 || end <= start then None
    else Some(text[start..end + 1])
  }

  /** `extractJson`; `parse` is `JSON.parse`, `None` where it throws. */
  function ExtractJson(text: string, parse: string -> Option<Value>): Option<Value> {
    match ExtractSpan(text)
    case None => None
    case Some(candidate) => parse(candidate)
  }

  /** There is no candidate exactly when no `}` comes after a `{`. */
  lemma SpanAbsent(text: string)
    ensures ExtractSpan(text).None? <==>
      forall i, j :: 0 <= i < j < |text| && text[i] == '{' ==> text[j] != '}'
  {
  }

  /** The candidate runs from the first `{` to the last `}`, both included. */
  lemma SpanIsFirstToLast(text: string, i: nat, j: nat)
    requires i < j < |text| && text[i] == '{' && text[j] == '}'
    requires forall k :: 0 <= k < i ==> text[k] != '{'
    requires forall k :: j < k < |text| ==> text[k] != '}'
    ensures ExtractSpan(text) == Some(text[i..j + 1])
  {
  }

  // ---------------------------------------------------------------------------
  // validateShape and generateInsightsWithOpenAI
  // ---------------------------------------------------------------------------

  predicate IsFocusTaskValue(f: Value) {
    !Falsy(f) && Prop(f, "title").Str? && Prop(f, "reason").Str?
  }

  /** `validateShape`: `typeof obj === "object"` also holds for arrays and dates, whose
      named properties read as `undefined`. */
  predicate ValidateShape(v: Value) {
    && !Falsy(v) && (v.Obj? || v.Arr? || v.Date?)
    && Prop(v, "summary").Str?
    && Prop(v, "focusTasks").Arr?
    && Prop(v, "warnings").Arr?
    && Prop(v, "productivityTip").Str?
    && (forall i :: 0 <= i < |Prop(v, "focusTasks").items| ==> IsFocusTaskValue(Prop(v, "focusTasks").items[i]))
    && (forall i :: 0 <= i < |Prop(v, "warnings").items| ==> Prop(v, "warnings").items[i].Str?)
  }

  /** The insights an accepted object denotes. */
  function ToInsights(v: Value): AiRules.Insights
    requires ValidateShape(v)
  {
    var fs := Prop(v, "focusTasks").items;
    var ws := Prop(v, "warnings").items;
    AiRules.Insights(
      Prop(v, "summary").s,
      seq(|fs|, i requires 0 <= i < |fs| => AiRules.FocusTask(Prop(fs[i], "title").s, Prop(fs[i], "reason").s)),
      seq(|ws|, i requires 0 <= i < |ws| => ws[i].s),
      Prop(v, "productivityTip").s)
  }

  /** The JSON object an `InsightsResult` is written as. */
  function FromInsights(r: AiRules.Insights): Value {
    Obj(map[
      "summary" := Str(r.summary),
      "focusTasks" := Arr(seq(|r.focusTasks|, i requires 0 <= i < |r.focusTasks| =>
        Obj(map["title" := Str(r.focusTasks[i].title), "reason" := Str(r.focusTasks[i].reason)]))),
      "warnings" := Arr(seq(|r.warnings|, i requires 0 <= i < |r.warnings| => Str(r.warnings[i]))),
      "productivityTip" := Str(r.productivityTip)])
  }

  /** Every `InsightsResult` passes the shape check and is read back unchanged; whatever
      passes it is an object. */
  lemma ShapeRoundTrip(r: AiRules.Insights, v: Value)
    ensures ValidateShape(FromInsights(r)) && ToInsights(FromInsights(r)) == r
    ensures ValidateShape(v) ==> v.Obj?
  {
    var w := FromInsights(r);
    assert Prop(w, "summary") == Str(r.summary);
    assert Prop(w, "productivityTip") == Str(r.productivityTip);
    var fs := Prop(w, "focusTasks").items;
    forall i | 0 <= i < |fs|
      ensures IsFocusTaskValue(fs[i])
    {
      assert Prop(fs[i], "title") == Str(r.focusTasks[i].title);
      assert Prop(fs[i], "reason") == Str(r.focusTasks[i].reason);
    }
    var back := ToInsights(w);
    assert back.focusTasks == r.focusTasks by {
      forall i | 0 <= i < |fs|
        ensures back.focusTasks[i] == r.focusTasks[i]
      {
        assert Prop(fs[i], "title") == Str(r.focusTasks[i].title);
        assert Prop(fs[i], "reason") == Str(r.focusTasks[i].reason);
      }
    }
  }

  /** The acceptance step of `generateInsightsWithOpenAI`: the span extracted from the
      sanitised text, else the whole sanitised text, provided it passes the shape check;
      `None` stands for the error thrown otherwise. */
  function AcceptInsights(cleaned: string, parse: string -> Option<Value>): Option<Value> {
    var parsed := ExtractJson(cleaned, parse);
    if parsed.Some? && !Falsy(parsed.value) && ValidateShape(parsed.value) then parsed
    else
      var whole := parse(cleaned);
      if whole.Some? && ValidateShape(whole.value) then whole else None
  }

  /** `generateInsightsWithOpenAI` after the completion: `content` is the first choice's
      message content (`""` when falsy; the text methods throw on anything else but a
      string), and `None` stands for a thrown error. */
  function InsightsFromCompletion(hasClient: bool, content: Value, parse: string -> Option<Value>): Option<Value> {
    if !hasClient then None
    else
      var text := if Falsy(content) then Str("") else content;
      if !text.Str? then None else AcceptInsights(Sanitize(text.s), parse)
  }

  /** Only objects that passed the shape check come back, parsed either from the extracted
      span or from the whole text; and a span that parses to a valid object always does. */
  lemma InsightsOnlyValidated(cleaned: string, parse: string -> Option<Value>)
    ensures var r := AcceptInsights(cleaned, parse);
      && (r.Some? ==> ValidateShape(r.value) && (r == ExtractJson(cleaned, parse) || r == parse(cleaned)))
      && (ExtractJson(cleaned, parse).Some? && ValidateShape(ExtractJson(cleaned, parse).value) ==>
            r == ExtractJson(cleaned, parse))
  {
    var parsed := ExtractJson(cleaned, parse);
    if parsed.Some? && ValidateShape(parsed.value) {
      ShapeRoundTrip(AiRules.Insights("", [], [], ""), parsed.value);
    }
  }

  /** Without a client nothing comes back; a string completion is sanitised before it is
      accepted, and one without back-ticks is only trimmed. */
  lemma CompletionIsSanitised(hasClient: bool, content: string, parse: string -> Option<Value>)
    ensures !hasClient ==> InsightsFromCompletion(hasClient, Str(content), parse).None?
    ensures hasClient ==> InsightsFromCompletion(hasClient, Str(content), parse) == AcceptInsights(Sanitize(content), parse)
    ensures hasClient && '`' !in content ==>
      InsightsFromCompletion(hasClient, Str(content), parse) == AcceptInsights(Trim(content), parse)
  {
    if hasClient {
      assert Falsy(Str(content)) ==> content == "";
      CompletionOfString(content, parse);
      if '`' !in content {
        SanitizeMeaning(content);
        assert Sanitize(content) == Trim(content);
      }
    }
  }

  lemma CompletionOfString(content: string, parse: string -> Option<Value>)
    ensures InsightsFromCompletion(true, Str(content), parse) == AcceptInsights(Sanitize(content), parse)
  {
    var text := if Falsy(Str(content)) then Str("") else Str(content);
    assert text == Str(content);
  }
}
