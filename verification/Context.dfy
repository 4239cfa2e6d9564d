/** Bounded conversation context: old entries are folded into a clipped summary. */
module Context {
  import opened Common

  datatype Role = User | Assistant | System

  datatype Entry = Entry(role: Role, content: string, image: Option<string>, tokens: nat)

  const KEEP: nat := 6
  const CLIP: nat := 1500
  const PREVIEW: nat := 100

  // ---- token estimate ------------------------------------------------------

  function Utf8Length(c: char): (n: nat)
    ensures 1 <= n <= 4
  {
    var u := c as int;
    if u < 0x80 then 1 else if u < 0x800 then 2 else if u < 0x1_0000 then 3 else 4
  }

  function Bytes(s: string): nat {
    if s == "" then 0 else Bytes(s[..|s| - 1]) + Utf8Length(s[|s| - 1])
  }

  function WideChars(s: string): (n: nat)
    ensures n <= Bytes(s)
  {
    if s == "" then 0 else WideChars(s[..|s| - 1]) + if s[|s| - 1] as int > 0x4E00 then 1 else 0
  }

  /** Two tokens per character beyond U+4E00, and one per four of the other bytes. */
  function EstimateTokens(s: string): nat { WideChars(s) * 2 + (Bytes(s) - WideChars(s)) / 4 }

  // ---- summary text ----------------------------------------------------------

  function Preview(content: string): string {
    if |content| > PREVIEW then content[..PREVIEW] + "..." else content
  }

  function Line(e: Entry): string {
    "[" + (match e.role case User => "用户" case Assistant => "助手" case System => "系统") + "]: " + Preview(e.content)
  }

  /** One line for every entry of a user or the assistant. */
  function Lines(es: seq<Entry>): seq<string> {
    if es == [] then []
    else
      var front, last := Lines(es[..|es| - 1]), es[|es| - 1];
      if last.role.User? || last.role.Assistant? then front + [Line(last)] else front
  }

  function Join(lines: seq<string>): string {
    if lines == [] then ""
    else if |lines| == 1 then lines[0]
    else Join(lines[..|lines| - 1]) + "\n" + lines[|lines| - 1]
  }

  function Clip(s: string): string { if |s| > CLIP then "..." + s[|s| - CLIP..] else s }

  // ---- what the texts and numbers mean -----------------------------------------

  /** A text of up to 1500 characters is kept, a longer one is cut to its last 1500 behind three dots. */
  lemma ClipMeaning(s: string)
    ensures |s| <= 1500 ==> Clip(s) == s
    ensures |s| > 1500 ==> |Clip(s)| == 1503 && Clip(s)[..3] == "..." && Clip(s)[3..] == s[|s| - 1500..]
  {}

  /** A message of up to 100 characters is rendered whole, a longer one by its first 100 and three dots. */
  lemma PreviewMeaning(content: string)
    ensures |content| <= 100 ==> Preview(content) == content
    ensures |content| > 100 ==> |Preview(content)| == 103 && Preview(content)[..100] == content[..100] && Preview(content)[100..] == "..."
  {}

  /** A line tells who spoke and, of a short message, everything that was said. */
  lemma LineTells(e: Entry, f: Entry)
    requires !e.role.System? && !f.role.System? && Line(e) == Line(f)
    ensures e.role == f.role && Preview(e.content) == Preview(f.content)
    ensures |e.content| <= 100 && |f.content| <= 100 ==> e.content == f.content
  {
    var p := if e.role.User? then "[用户]: " else "[助手]: ";
    var q := if f.role.User? then "[用户]: " else "[助手]: ";
    assert Line(e) == p + Preview(e.content) && Line(f) == q + Preview(f.content);
    assert Line(e)[1] == p[1] && Line(f)[1] == q[1];
    assert (p + Preview(e.content))[6..] == Preview(e.content);
    assert (q + Preview(f.content))[6..] == Preview(f.content);
  }

  /** Plain ASCII text takes one token per four characters. */
  lemma {:induction false} AsciiTokens(s: string)
    requires forall i :: 0 <= i < |s| ==> s[i] as int < 0x80
    ensures WideChars(s) == 0 && Bytes(s) == |s| && EstimateTokens(s) == |s| / 4
  {
    if s != "" { AsciiTokens(s[..|s| - 1]); }
  }

  /** Chinese text takes two tokens a character, and one more for every two characters: the two
      further bytes of each are counted like other text. */
  lemma {:induction false} ChineseTokens(s: string)
    requires forall i :: 0 <= i < |s| ==> 0x4E00 < s[i] as int < 0xD800
    ensures WideChars(s) == |s| && Bytes(s) == 3 * |s| && EstimateTokens(s) == 2 * |s| + |s| / 2
  {
    if s != "" { ChineseTokens(s[..|s| - 1]); }
  }

  lemma {:induction false} CountsAppend(a: string, b: string)
    ensures WideChars(a + b) == WideChars(a) + WideChars(b) && Bytes(a + b) == Bytes(a) + Bytes(b)
  {
    if b == "" {
      assert a + b == a;
    } else {
      assert (a + b)[..|a + b| - 1] == a + b[..|b| - 1];
      CountsAppend(a, b[..|b| - 1]);
    }
  }

  /** Estimating a text in two parts loses at most one token. */
  lemma TokensAppend(a: string, b: string)
    ensures EstimateTokens(a) + EstimateTokens(b) <= EstimateTokens(a + b) <= EstimateTokens(a) + EstimateTokens(b) + 1
  {
    CountsAppend(a, b);
  }

  // ---- the context on values ---------------------------------------------------

  datatype Ctx = Ctx(conversation: seq<Entry>, summary: Option<string>, tokens: nat)

  const Empty := Ctx([], None, 0)

  function Subtract(tokens: nat, es: seq<Entry>): nat {
    if es == [] then tokens
    else
      var before, t := Subtract(tokens, es[..|es| - 1]), es[|es| - 1].tokens;
      if t <= before then before - t else 0
  }

  function Summarise(earlier: Option<string>, es: seq<Entry>): string {
    var text := Full(es);
    Clip(if earlier.Some? then earlier.value + "\n" + text else text)
  }

  /** Seventy per cent of the token budget: compaction starts here. */
  function Threshold(maxTokens: nat): nat { maxTokens * 70 / 100 }

  function Compact(c: Ctx, threshold: nat): Ctx {
    var n := |c.conversation|;
    if c.tokens < threshold || n < KEEP + 3 then c
    else
      var gone := c.conversation[..n - KEEP];
      Ctx(c.conversation[n - KEEP..], Some(Summarise(c.summary, gone)), Subtract(c.tokens, gone))
  }

  function Append(c: Ctx, e: Entry): Ctx { Ctx(c.conversation + [e], c.summary, c.tokens + e.tokens) }

  /** Seventy per cent, exactly: below the threshold means more than one token below them. */
  lemma ThresholdExact(tokens: nat, maxTokens: nat)
    ensures tokens < Threshold(maxTokens) <==> (tokens + 1) * 100 <= maxTokens * 70
  {}

  /** Compaction happens exactly from the threshold on with at least nine entries, and keeps the last six. */
  lemma CompactExactly(c: Ctx, threshold: nat)
    ensures
      var n := |c.conversation|;
      if c.tokens >= threshold && n >= 9 then
        Compact(c, threshold).conversation == c.conversation[n - 6..] && Compact(c, threshold).summary.Some?
      else Compact(c, threshold) == c
  {}

  function Add(c: Ctx, e: Entry, threshold: nat): Ctx {
    Compact(Append(c, e), threshold)
  }

  function AddAll(entries: seq<Entry>, threshold: nat): Ctx {
    if entries == [] then Empty
    else Add(AddAll(entries[..|entries| - 1], threshold), entries[|entries| - 1], threshold)
  }

  lemma AddAllStep(entries: seq<Entry>, e: Entry, threshold: nat)
    ensures AddAll(entries + [e], threshold) == Add(AddAll(entries, threshold), e, threshold)
  {
    assert (entries + [e])[..|entries + [e]| - 1] == entries;
  }

  function TokenSum(es: seq<Entry>): nat {
    if es == [] then 0 else TokenSum(es[..|es| - 1]) + es[|es| - 1].tokens
  }

  /** The entries the public operations create. */
  predicate Spoken(es: seq<Entry>) { forall e :: e in es ==> !e.role.System? }

  /** The context of a history of which the first `k` entries have been summarised. */
  ghost predicate Refines(c: Ctx, history: seq<Entry>, k: nat) {
    && k <= |history|
    && c.conversation == history[k..]
    && c.tokens == TokenSum(history[k..])
    && c.summary == SummaryOf(history, k)
  }

  // ---- why the clipped summary is the clip of the whole one ----------------------

  lemma ClipAbsorbs(f: string, g: string)
    requires g != ""
    ensures Clip(Clip(f) + g) == Clip(f + g)
  {
    if |f| > CLIP {
      var last := f[|f| - CLIP..];
      assert |"..." + last + g| > CLIP && |f + g| > CLIP;
      assert ("..." + last + g)[|"..." + last + g| - CLIP..] == (last + g)[|g|..];
      assert (f + g)[|f + g| - CLIP..] == (last + g)[|g|..];
    }
  }

  lemma {:induction false} JoinAppends(a: seq<string>, b: seq<string>)
    requires a != [] && b != []
    ensures Join(a + b) == Join(a) + "\n" + Join(b)
  {
    if |b| == 1 {
      assert (a + b)[..|a + b| - 1] == a;
    } else {
      var front := b[..|b| - 1];
      JoinAppends(a, front);
      assert (a + b)[..|a + b| - 1] == a + front;
      assert Join(a) + "\n" + Join(front) + "\n" + b[|b| - 1] == Join(a) + "\n" + (Join(front) + "\n" + b[|b| - 1]);
    }
  }

  lemma {:induction false} LinesAppend(a: seq<Entry>, b: seq<Entry>)
    ensures Lines(a + b) == Lines(a) + Lines(b)
  {
    if b == [] {
      assert a + b == a;
    } else {
      LinesAppend(a, b[..|b| - 1]);
      assert (a + b)[..|a + b| - 1] == a + b[..|b| - 1];
    }
  }

  lemma LinesNonEmpty(es: seq<Entry>)
    requires es != [] && Spoken(es)
    ensures Lines(es) != []
  {
    assert es[|es| - 1] in es;
  }

  lemma {:induction false} TokenSumAppend(a: seq<Entry>, b: seq<Entry>)
    ensures TokenSum(a + b) == TokenSum(a) + TokenSum(b)
  {
    if b == [] {
      assert a + b == a;
    } else {
      TokenSumAppend(a, b[..|b| - 1]);
      assert (a + b)[..|a + b| - 1] == a + b[..|b| - 1];
    }
  }

  /** Subtracting entries that are part of the sum never saturates. */
  lemma {:induction false} SubtractExact(tokens: nat, es: seq<Entry>)
    requires TokenSum(es) <= tokens
    ensures Subtract(tokens, es) == tokens - TokenSum(es)
  {
    if es != [] { SubtractExact(tokens, es[..|es| - 1]); }
  }

  lemma ClipAbsorbsLine(f: string, g: string)
    ensures Clip(Clip(f) + "\n" + g) == Clip(f + "\n" + g)
  {
    ClipAbsorbs(f, "\n" + g);
    assert Clip(f) + "\n" + g == Clip(f) + ("\n" + g);
    assert f + "\n" + g == f + ("\n" + g);
  }

  /** The whole summary a history would have if nothing was ever clipped. */
  function Full(es: seq<Entry>): string { Join(Lines(es)) }

  lemma FullAppends(a: seq<Entry>, b: seq<Entry>)
    requires a != [] && b != [] && Spoken(a) && Spoken(b)
    ensures Full(a + b) == Full(a) + "\n" + Full(b)
  {
    LinesAppend(a, b);
    LinesNonEmpty(a);
    LinesNonEmpty(b);
    JoinAppends(Lines(a), Lines(b));
  }

  /** What the summary is once the first `k` entries have been folded into it. */
  function SummaryOf(history: seq<Entry>, k: nat): Option<string>
    requires k <= |history|
  {
    if k == 0 then None else Some(Clip(Full(history[..k])))
  }

  lemma SummaryRefines(history: seq<Entry>, k: nat, j: nat)
    requires k < j <= |history| && Spoken(history)
    ensures Summarise(SummaryOf(history, k), history[k..j]) == Clip(Full(history[..j]))
  {
    var a, b := history[..k], history[k..j];
    assert history[..j] == a + b;
    if k > 0 {
      FullAppends(a, b);
      ClipAbsorbsLine(Full(a), Full(b));
    } else {
      assert a + b == b;
    }
  }

  /** How far a compaction moves the boundary. */
  function Boundary(c: Ctx, k: nat, threshold: nat): nat {
    if c.tokens < threshold || |c.conversation| < KEEP + 3 then k
    else k + |c.conversation| - KEEP
  }

  lemma CompactRefines(c: Ctx, history: seq<Entry>, k: nat, threshold: nat)
    requires Spoken(history) && Refines(c, history, k)
    ensures Refines(Compact(c, threshold), history, Boundary(c, k, threshold))
    ensures Compact(c, threshold).tokens < threshold || |Compact(c, threshold).conversation| <= 8
  {
    var j := Boundary(c, k, threshold);
    if j != k {
      assert c.conversation[..j - k] == history[k..j];
      assert history[k..] == history[k..j] + history[j..];
      TokenSumAppend(history[k..j], history[j..]);
      SubtractExact(c.tokens, history[k..j]);
      SummaryRefines(history, k, j);
    }
  }

  lemma LongerRefines(c: Ctx, history: seq<Entry>, k: nat, e: Entry)
    requires Refines(c, history, k)
    ensures Refines(Append(c, e), history + [e], k)
  {
    var longer := history + [e];
    assert longer[k..] == history[k..] + [e] && longer[..k] == history[..k];
    TokenSumAppend(history[k..], [e]);
    assert TokenSum([e]) == TokenSum([e][..0]) + e.tokens;
  }

  lemma AddRefines(c: Ctx, history: seq<Entry>, k: nat, e: Entry, threshold: nat) returns (j: nat)
    requires Spoken(history + [e]) && Refines(c, history, k)
    ensures Refines(Add(c, e, threshold), history + [e], j)
    ensures Add(c, e, threshold).tokens < threshold || |Add(c, e, threshold).conversation| <= 8
  {
    LongerRefines(c, history, k, e);
    CompactRefines(Append(c, e), history + [e], k, threshold);
    j := Boundary(Append(c, e), k, threshold);
  }

  /** Compaction refines the unbounded transcript: whatever is said, the conversation is the part
      of the history that was not summarised, its token count is exact, the summary is the clip of
      the full summary of the rest, and the budget or the length bound holds after the last add. */
  lemma {:induction false} TranscriptRefined(entries: seq<Entry>, threshold: nat) returns (k: nat)
    requires Spoken(entries)
    ensures Refines(AddAll(entries, threshold), entries, k)
    ensures entries != [] ==>
              var c := AddAll(entries, threshold);
              c.tokens < threshold || |c.conversation| <= 8
  {
    if entries == [] {
      k := 0;
    } else {
      var front := entries[..|entries| - 1];
      assert entries == front + [entries[|entries| - 1]];
      var i := TranscriptRefined(front, threshold);
      k := AddRefines(AddAll(front, threshold), front, i, entries[|entries| - 1], threshold);
    }
  }

  /** The recent messages of a prompt: the last ten entries, in order. */
  function Recent(c: Ctx): seq<Entry> {
    var n := |c.conversation|;
    c.conversation[if n > 10 then n - 10 else 0..]
  }

  /** Which entries a prompt leaves out: the first `k` are in its summary, those from `m` on are its
      recent messages, and the ones between are in neither. There are such entries exactly when the
      conversation holds more than ten, and none from the threshold on. */
  lemma PromptLosesExactly(entries: seq<Entry>, threshold: nat) returns (k: nat, m: nat)
    requires Spoken(entries)
    ensures
      var c := AddAll(entries, threshold);
      && k <= m <= |entries| && m == (if |entries| >= k + 10 then |entries| - 10 else k)
      && c.summary == SummaryOf(entries, k) && Recent(c) == entries[m..]
      && c.conversation == entries[k..m] + Recent(c)
      && (entries[k..m] != [] <==> |c.conversation| > 10)
      && (entries != [] && c.tokens >= threshold ==> k == m)
  {
    k := TranscriptRefined(entries, threshold);
    m := if |entries| >= k + 10 then |entries| - 10 else k;
    SuffixSplits(entries, k, m);
  }

  lemma SuffixSplits(entries: seq<Entry>, k: nat, m: nat)
    requires k <= m <= |entries|
    ensures entries[k..] == entries[k..m] + entries[m..]
    ensures entries[k..][m - k..] == entries[m..]
  {}

  lemma {:induction false} NeverCompacted(entries: seq<Entry>, threshold: nat)
    requires TokenSum(entries) < threshold
    ensures AddAll(entries, threshold) == Ctx(entries, None, TokenSum(entries))
  {
    if entries != [] {
      var front := entries[..|entries| - 1];
      NeverCompacted(front, threshold);
      assert front + [entries[|entries| - 1]] == entries;
    }
  }

  /** A long conversation of short messages is not summarised, and all but its last ten messages
      are missing from the prompt. */
  lemma ShortMessagesForgotten(entries: seq<Entry>, threshold: nat)
    requires TokenSum(entries) < threshold && |entries| > 10
    ensures var c := AddAll(entries, threshold);
            c.summary == None && Recent(c) == entries[|entries| - 10..]
  {
    NeverCompacted(entries, threshold);
  }

  lemma PrefixStep(es: seq<Entry>, i: nat, tokens: nat)
    requires i < |es|
    ensures Lines(es[..i + 1]) == Lines(es[..i]) + if es[i].role.System? then [] else [Line(es[i])]
    ensures Subtract(tokens, es[..i + 1]) ==
            var before := Subtract(tokens, es[..i]);
            if es[i].tokens <= before then before - es[i].tokens else 0
  {
    assert es[..i + 1][..i] == es[..i];
  }

  // ---- visual memory -----------------------------------------------------------

  datatype FrameSummary = FrameSummary(description: string, source: string)

  const MAX_VISUAL: nat := 5

  /** The frames without those that only repeat the description before them. */
  function Distinct(frames: seq<FrameSummary>): seq<FrameSummary> {
    if frames == [] then []
    else
      var front, f := Distinct(frames[..|frames| - 1]), frames[|frames| - 1];
      if front != [] && front[|front| - 1].description == f.description then front else front + [f]
  }

  function Last(frames: seq<FrameSummary>, n: nat): seq<FrameSummary> {
    if |frames| <= n then frames else frames[|frames| - n..]
  }

  lemma LastStep(d: seq<FrameSummary>, f: FrameSummary, n: nat)
    requires n >= 1
    ensures d != [] ==> Last(d, n) != [] && Last(d, n)[|Last(d, n)| - 1] == d[|d| - 1]
    ensures d == [] ==> Last(d, n) == []
    ensures Last(d + [f], n) == var kept := Last(d, n) + [f]; if |kept| > n then kept[1..] else kept
  {}

  lemma DistinctStep(frames: seq<FrameSummary>, f: FrameSummary)
    ensures Distinct(frames + [f]) ==
            var d := Distinct(frames);
            if d != [] && d[|d| - 1].description == f.description then d else d + [f]
  {
    assert (frames + [f])[..|frames|] == frames;
  }

  /** No frame in the visual memory repeats the description before it. */
  lemma {:induction false} DistinctNeighbours(frames: seq<FrameSummary>)
    ensures var d := Distinct(frames);
            forall i, j :: 0 <= i < j < |d| && j == i + 1 ==> d[i].description != d[j].description
  {
    if frames != [] {
      var front, f := frames[..|frames| - 1], frames[|frames| - 1];
      DistinctNeighbours(front);
      DistinctStep(front, f);
      assert front + [f] == frames;
    }
  }

  // ---- the object ------------------------------------------------------------

  class ContextManager {
    const threshold: nat
    var conversation: seq<Entry>
    var summary: Option<string>
    var currentTokens: nat
    var visualMemory: seq<FrameSummary>
    var sessionTokens: nat
    ghost var history: seq<Entry>
    ghost var frames: seq<FrameSummary>

    function State(): (c: Ctx)
      reads this
    {
      Ctx(conversation, summary, currentTokens)
    }

    /** The object is where adding its history, entry by entry, leads. */
    ghost predicate Valid()
      reads this
    {
      Spoken(history) && State() == AddAll(history, threshold)
    }

    /** The visual memory is the end of the frames without their repetitions. */
    ghost predicate Sees()
      reads this
    {
      visualMemory == Last(Distinct(frames), 5)
    }

    constructor (maxTokens: nat)
      ensures threshold == Threshold(maxTokens) && Valid() && history == []
      ensures Sees() && frames == [] && sessionTokens == 0
    {
      threshold := Threshold(maxTokens);
      conversation, summary, currentTokens, history := [], None, 0, [];
      visualMemory, frames, sessionTokens := [], [], 0;
    }

    /** Takes `count` entries from the front and renders those of the user and the assistant. */
    method PopFront(count: nat) returns (parts: seq<string>)
      requires count <= |conversation|
      modifies this`conversation, this`currentTokens
      ensures parts == Lines(old(conversation)[..count])
      ensures conversation == old(conversation)[count..]
      ensures currentTokens == Subtract(old(currentTokens), old(conversation)[..count])
    {
      parts := [];
      var i := 0;
      ghost var was := conversation;
      while i < count
        invariant i <= count && conversation == was[i..]
        invariant parts == Lines(was[..i])
        invariant currentTokens == Subtract(old(currentTokens), was[..i])
      {
        var entry := conversation[0];
        PrefixStep(was, i, old(currentTokens));
        conversation := conversation[1..];
        currentTokens := if entry.tokens <= currentTokens then currentTokens - entry.tokens else 0;
        if entry.role.User? || entry.role.Assistant? { parts := parts + [Line(entry)]; }
        i := i + 1;
      }
    }

    method MaybeCompact()
      modifies this`conversation, this`summary, this`currentTokens
      ensures State() == Compact(old(State()), threshold)
    {
      if currentTokens < threshold { return; }
      var count := if |conversation| >= KEEP then |conversation| - KEEP else 0;
      if count < 3 { return; }
      var parts := PopFront(count);
      var text := Join(parts);
      if summary.Some? { text := summary.value + "\n" + text; }
      summary := Some(Clip(text));
    }

    method Push(e: Entry)
      modifies this`conversation, this`summary, this`currentTokens
      ensures State() == Add(old(State()), e, threshold)
    {
      conversation, currentTokens := conversation + [e], currentTokens + e.tokens;
      MaybeCompact();
    }

    method AddEntry(e: Entry)
      requires Valid() && !e.role.System?
      modifies this`conversation, this`summary, this`currentTokens, this`history
      ensures Valid() && history == old(history) + [e]
    {
      Push(e);
      AddAllStep(history, e, threshold);
      history := history + [e];
    }

    method AddUserMessage(content: string)
      requires Valid()
      modifies this`conversation, this`summary, this`currentTokens, this`history
      ensures Valid() && history == old(history) + [Entry(User, content, None, EstimateTokens(content))]
    {
      AddEntry(Entry(User, content, None, EstimateTokens(content)));
    }

    method AddAssistantMessage(content: string)
      requires Valid()
      modifies this`conversation, this`summary, this`currentTokens, this`history
      ensures Valid() && history == old(history) + [Entry(Assistant, content, None, EstimateTokens(content))]
    {
      AddEntry(Entry(Assistant, content, None, EstimateTokens(content)));
    }

    method AddUserMessageWithImage(content: string, image: string)
      requires Valid()
      modifies this`conversation, this`summary, this`currentTokens, this`history
      ensures Valid() && history == old(history) + [Entry(User, content, Some(image), EstimateTokens(content) + 100)]
    {
      AddEntry(Entry(User, content, Some(image), EstimateTokens(content) + 100));
    }

    method AddFrameSummary(f: FrameSummary)
      requires Sees()
      modifies this`visualMemory, this`frames
      ensures Sees() && frames == old(frames) + [f]
    {
      DistinctStep(frames, f);
      LastStep(Distinct(frames), f, 5);
      frames := frames + [f];
      if visualMemory != [] && visualMemory[|visualMemory| - 1].description == f.description { return; }
      visualMemory := visualMemory + [f];
      if |visualMemory| > MAX_VISUAL { visualMemory := visualMemory[1..]; }
    }

    method AddTokens(tokens: nat)
      modifies this`sessionTokens
      ensures sessionTokens == old(sessionTokens) + tokens
    {
      sessionTokens := sessionTokens + tokens;
    }

    method Clear()
      modifies this
      ensures Valid() && history == [] && State() == Empty
      ensures Sees() && frames == [] && visualMemory == [] && sessionTokens == 0
    {
      conversation, summary, currentTokens, history := [], None, 0, [];
      visualMemory, frames, sessionTokens := [], [], 0;
    }
  }
}
