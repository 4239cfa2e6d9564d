/** Long-term memories: the best few for a query without sorting them all, and atomic additions. */
module Memory {
  import opened Common

  // ---- ranking -----------------------------------------------------------------

  /** A memory, by its position in the store, and its score. */
  datatype Scored = Scored(memory: nat, score: real)

  function Scores(s: seq<Scored>): (r: seq<real>)
    ensures |r| == |s| && forall k :: 0 <= k < |s| ==> r[k] == s[k].score
  {
    seq(|s|, k requires 0 <= k < |s| => s[k].score)
  }

  ghost predicate Descending(s: seq<Scored>) {
    forall i, j :: 0 <= i < j < |s| ==> s[i].score >= s[j].score
  }

  ghost predicate SortOf(sorted: seq<Scored>, s: seq<Scored>) {
    Descending(sorted) && multiset(sorted) == multiset(s)
  }

  /** What selecting the element at `keep` promises: the same elements, none before that position
      smaller than one from there on. */
  ghost predicate SelectionOf(p: seq<Scored>, s: seq<Scored>, keep: nat) {
    && multiset(p) == multiset(s)
    && forall i, j :: 0 <= i < keep <= j < |p| ==> p[i].score >= p[j].score
  }

  function Positive(s: seq<Scored>): seq<Scored> {
    if s == [] then []
    else
      var front := Positive(s[..|s| - 1]);
      if s[|s| - 1].score > 0.0 then front + [s[|s| - 1]] else front
  }

  function Take(s: seq<Scored>, limit: nat): seq<Scored> { if |s| <= limit then s else s[..limit] }

  function Insert(x: Scored, s: seq<Scored>): seq<Scored> {
    if s == [] || x.score > s[0].score then [x] + s else [s[0]] + Insert(x, s[1..])
  }

  /** A stable sort, largest first. */
  function Sort(s: seq<Scored>): seq<Scored> {
    if s == [] then [] else Insert(s[|s| - 1], Sort(s[..|s| - 1]))
  }

  lemma {:induction false} InsertAdds(x: Scored, s: seq<Scored>)
    ensures multiset(Insert(x, s)) == multiset{x} + multiset(s)
  {
    if s != [] && x.score <= s[0].score {
      InsertAdds(x, s[1..]);
      assert s == [s[0]] + s[1..];
    }
  }

  lemma {:induction false} InsertSorted(x: Scored, s: seq<Scored>)
    requires Descending(s)
    ensures Descending(Insert(x, s))
  {
    if s != [] && x.score <= s[0].score {
      InsertSorted(x, s[1..]);
      InsertAdds(x, s[1..]);
      var r := Insert(x, s[1..]);
      forall k | 0 <= k < |r|
        ensures s[0].score >= r[k].score
      {
        assert r[k] in multiset(r);
        assert r[k] == x || r[k] in s[1..];
      }
    }
  }

  lemma {:induction false} SortSorts(s: seq<Scored>)
    ensures SortOf(Sort(s), s)
  {
    if s != [] {
      var front := s[..|s| - 1];
      SortSorts(front);
      InsertSorted(s[|s| - 1], Sort(front));
      InsertAdds(s[|s| - 1], Sort(front));
      assert s == front + [s[|s| - 1]];
    }
  }

  lemma SameSize(a: seq<Scored>, b: seq<Scored>)
    requires multiset(a) == multiset(b)
    ensures |a| == |b|
  {
    assert |multiset(a)| == |a| && |multiset(b)| == |b|;
  }

  ghost predicate Falling(s: seq<real>) { forall i, j :: 0 <= i < j < |s| ==> s[i] >= s[j] }

  lemma HeadsAgree(a: seq<real>, b: seq<real>)
    requires Falling(a) && Falling(b) && multiset(a) == multiset(b) && a != [] && b != []
    ensures a[0] == b[0]
  {
    assert a[0] in multiset(b) && b[0] in multiset(a);
  }

  lemma TailOf(s: seq<real>)
    requires s != []
    ensures multiset(s[1..]) == multiset(s) - multiset{s[0]}
    ensures Falling(s) ==> Falling(s[1..])
  {
    assert s == [s[0]] + s[1..];
  }

  /** Two sorts of the same scores list the same scores. */
  lemma {:induction false} SortedScoresAgree(a: seq<real>, b: seq<real>)
    requires Falling(a) && Falling(b) && multiset(a) == multiset(b)
    ensures a == b
  {
    assert |multiset(a)| == |a| && |multiset(b)| == |b|;
    if a != [] {
      HeadsAgree(a, b);
      TailOf(a);
      TailOf(b);
      SortedScoresAgree(a[1..], b[1..]);
      assert a == [a[0]] + a[1..] && b == [b[0]] + b[1..];
    }
  }

  function Without(s: seq<Scored>, k: nat): seq<Scored>
    requires k < |s|
  {
    s[..k] + s[k + 1..]
  }

  lemma WithoutItem(s: seq<Scored>, k: nat)
    requires k < |s|
    ensures multiset(s) == multiset(Without(s, k)) + multiset{s[k]}
  {
    assert s == s[..k] + [s[k]] + s[k + 1..];
  }

  lemma WithoutScore(s: seq<Scored>, k: nat)
    requires k < |s|
    ensures multiset(Scores(s)) == multiset(Scores(Without(s, k))) + multiset{s[k].score}
  {
    var t := Scores(s);
    assert t == t[..k] + [t[k]] + t[k + 1..];
    assert Scores(Without(s, k)) == t[..k] + t[k + 1..];
  }

  lemma {:induction false} ScoresOfPermutation(a: seq<Scored>, b: seq<Scored>)
    requires multiset(a) == multiset(b)
    ensures multiset(Scores(a)) == multiset(Scores(b))
    decreases |a|
  {
    SameSize(a, b);
    if a != [] {
      assert a[0] in multiset(b);
      var k :| 0 <= k < |b| && b[k] == a[0];
      WithoutItem(a, 0);
      WithoutItem(b, k);
      assert multiset(Without(a, 0)) == multiset(a) - multiset{a[0]};
      assert multiset(Without(b, k)) == multiset(b) - multiset{a[0]};
      ScoresOfPermutation(Without(a, 0), Without(b, k));
      WithoutScore(a, 0);
      WithoutScore(b, k);
    }
  }

  /** Any two full sorts of the same memories agree on the scores. */
  lemma SortsAgree(a: seq<Scored>, b: seq<Scored>, s: seq<Scored>)
    requires SortOf(a, s) && SortOf(b, s)
    ensures Scores(a) == Scores(b)
  {
    ScoresOfPermutation(a, b);
    SortedScoresAgree(Scores(a), Scores(b));
  }

  /** Sorting what the selection keeps and, behind it, the rest, sorts everything. */
  lemma SelectThenSort(p: seq<Scored>, s: seq<Scored>, keep: nat, top: seq<Scored>, rest: seq<Scored>)
    requires SelectionOf(p, s, keep) && keep <= |p|
    requires SortOf(top, p[..keep]) && SortOf(rest, p[keep..])
    ensures SortOf(top + rest, s) && |top| == keep
  {
    SameSize(top, p[..keep]);
    assert p == p[..keep] + p[keep..];
    forall i, j | 0 <= i < |top| && 0 <= j < |rest|
      ensures top[i].score >= rest[j].score
    {
      assert top[i] in multiset(p[..keep]) && rest[j] in multiset(p[keep..]);
    }
  }

  ghost predicate IsPositivePrefix(s: seq<Scored>, n: nat) {
    && n <= |s| && Positive(s) == s[..n]
    && (forall k :: 0 <= k < n ==> s[k].score > 0.0)
    && (forall k :: n <= k < |s| ==> s[k].score <= 0.0)
  }

  lemma {:induction false} PositivePrefix(s: seq<Scored>) returns (n: nat)
    requires Descending(s)
    ensures IsPositivePrefix(s, n)
  {
    n := 0;
    if s != [] {
      var front, last := s[..|s| - 1], s[|s| - 1];
      n := PositivePrefix(front);
      if last.score > 0.0 {
        assert forall k :: 0 <= k < |front| ==> front[k].score >= last.score;
        assert n == |front| && front[..n] + [last] == s;
        n := n + 1;
        assert s[..n] == s;
      } else {
        assert front[..n] == s[..n];
      }
    }
  }

  /** The positive scores among the first `keep` are the first `keep` of the positive ones. */
  lemma PositiveOfTop(s: seq<Scored>, keep: nat) returns (n: nat)
    requires Descending(s) && keep <= |s|
    ensures IsPositivePrefix(s, n)
    ensures Positive(s[..keep]) == s[..if n <= keep then n else keep]
  {
    n := PositivePrefix(s);
    var q := PositivePrefix(s[..keep]);
    assert q < keep ==> s[..keep][q] == s[q];
    assert n < keep ==> s[..keep][n] == s[n];
    assert q > 0 ==> s[..keep][q - 1] == s[q - 1];
    assert s[..keep][..q] == s[..q];
  }

  lemma SamePositives(a: seq<Scored>, b: seq<Scored>, m: nat, n: nat)
    requires Scores(a) == Scores(b) && IsPositivePrefix(a, m) && IsPositivePrefix(b, n)
    ensures m == n
  {
    assert |a| == |Scores(a)| == |b|;
    var k := if m <= n then m else n;
    assert k < |a| ==> a[k].score == Scores(a)[k] == b[k].score;
  }

  /** Selecting, truncating, sorting and then dropping what does not match gives the scores that
      sorting everything would have put first, however equal scores were ordered. */
  lemma SelectionAgrees(s: seq<Scored>, p: seq<Scored>, limit: nat, top: seq<Scored>, full: seq<Scored>)
    requires SortOf(full, s)
    requires var keep := if limit <= |s| then limit else |s|;
             |p| == |s| && SelectionOf(p, s, keep) && SortOf(top, p[..keep])
    ensures
      var n := if |Positive(full)| <= limit then |Positive(full)| else limit;
      n <= |full| && Scores(Take(Positive(top), limit)) == Scores(full)[..n]
  {
    var keep := if limit <= |s| then limit else |s|;
    var rest := Sort(p[keep..]);
    SortSorts(p[keep..]);
    SelectThenSort(p, s, keep, top, rest);
    SameSize(full, s);
    SortsAgree(top + rest, full, s);
    var m := PositiveOfTop(top + rest, keep);
    var n := PositivePrefix(full);
    SamePositives(top + rest, full, m, n);
    assert (top + rest)[..keep] == top;
    TakeTop(top + rest, full, n, keep);
  }

  lemma TakeTop(a: seq<Scored>, b: seq<Scored>, n: nat, keep: nat)
    requires Scores(a) == Scores(b) && n <= |a| && keep <= |a|
    ensures var k := if n <= keep then n else keep; |b| == |a| && Scores(a[..k]) == Scores(b)[..k]
  {
    assert |Scores(a)| == |a|;
  }

  // ---- no memory twice -----------------------------------------------------------

  ghost predicate Indexed(s: seq<Scored>) { forall k :: 0 <= k < |s| ==> s[k].memory == k }

  lemma {:induction false} IndexedOnce(s: seq<Scored>, x: Scored)
    requires Indexed(s)
    ensures multiset(s)[x] <= 1
  {
    if s != [] {
      var front, last := s[..|s| - 1], s[|s| - 1];
      IndexedOnce(front, x);
      assert s == front + [last];
      if x == last {
        assert forall y :: y in front ==> y.memory < |front|;
        assert last !in multiset(front);
      }
    }
  }

  /** Whatever is picked from distinct memories is distinct. */
  lemma NoneTwice(r: seq<Scored>, s: seq<Scored>, i: nat, j: nat)
    requires Indexed(s) && multiset(r) <= multiset(s) && i < j < |r|
    ensures r[i].memory != r[j].memory
  {
    var x, y := r[i], r[j];
    assert x in multiset(r) && y in multiset(r);
    assert x in multiset(s) && y in multiset(s);
    IndexedOnce(s, x);
    assert x == s[x.memory] && y == s[y.memory];
    assert r == r[..i] + [x] + r[i + 1..j] + [y] + r[j + 1..];
  }

  lemma {:induction false} PositivePart(s: seq<Scored>)
    ensures multiset(Positive(s)) <= multiset(s)
  {
    if s != [] {
      PositivePart(s[..|s| - 1]);
      assert s == s[..|s| - 1] + [s[|s| - 1]];
    }
  }

  lemma PrefixPart(s: seq<Scored>, n: nat)
    requires n <= |s|
    ensures multiset(s[..n]) <= multiset(s)
  {
    assert s == s[..n] + s[n..];
  }

  /** What a search returns is part of what it ranked. */
  lemma ResultPart(s: seq<Scored>, p: seq<Scored>, keep: nat, top: seq<Scored>, limit: nat)
    requires multiset(p) == multiset(s) && keep <= |p| && multiset(top) == multiset(p[..keep])
    ensures multiset(Take(Positive(top), limit)) <= multiset(s)
  {
    PrefixPart(p, keep);
    PositivePart(top);
    var found := Positive(top);
    PrefixPart(found, if |found| <= limit then |found| else limit);
    assert found[..|found|] == found;
  }

  // ---- scores of a query ------------------------------------------------------------

  predicate OccursAt(text: string, term: string, k: nat) { k + |term| <= |text| && text[k..k + |term|] == term }

  predicate Contains(text: string, term: string) { exists k: nat :: k <= |text| && OccursAt(text, term, k) }

  /** Two points for every term that occurs, and the importance on top. */
  function Score(e: Entry, terms: set<string>): real {
    (|set t | t in terms && Contains(e.searchable, t)| as real) * 2.0 + (if e.importance.Some? then e.importance.value else 0.0)
  }

  function Rank(store: seq<Entry>, terms: set<string>): (s: seq<Scored>)
    ensures |s| == |store| && Indexed(s)
    ensures forall k :: 0 <= k < |s| ==> s[k].score == Score(store[k], terms)
  {
    seq(|store|, k requires 0 <= k < |store| => Scored(k, Score(store[k], terms)))
  }

  /** The terms of a query that occur in a memory. */
  function Matched(e: Entry, terms: set<string>): set<string> { set t | t in terms && Contains(e.searchable, t) }

  /** Importance only decides between memories that match equally many terms: with an importance
      between nought and one, one more matched term always ranks higher. */
  lemma MatchesComeFirst(e: Entry, f: Entry, terms: set<string>)
    requires e.importance.Some? && 0.0 <= e.importance.value && f.importance.Some? && f.importance.value <= 1.0
    requires |Matched(e, terms)| > |Matched(f, terms)|
    ensures Score(e, terms) > Score(f, terms)
  {
    var x, y := |Matched(e, terms)|, |Matched(f, terms)|;
    assert (x as real) >= (y as real) + 1.0;
  }

  lemma ImportanceDecides(e: Entry, f: Entry, terms: set<string>)
    requires e.importance.Some? && f.importance.Some? && |Matched(e, terms)| == |Matched(f, terms)|
    ensures Score(e, terms) - Score(f, terms) == e.importance.value - f.importance.value
  {}

  /** A memory that matches nothing is found by its importance alone. */
  lemma UnmatchedScore(e: Entry, terms: set<string>)
    requires Matched(e, terms) == {} && e.importance.Some?
    ensures Score(e, terms) == e.importance.value
  {}

  /** A term occurs exactly if the text is something, the term, and something. */
  lemma ContainsExactly(before: string, term: string, after: string)
    ensures Contains(before + term + after, term)
  {
    assert (before + term + after)[|before|..|before| + |term|] == term;
    assert OccursAt(before + term + after, term, |before|);
  }

  lemma ContainsOnly(text: string, term: string) returns (before: string, after: string)
    requires Contains(text, term)
    ensures text == before + term + after
  {
    var k: nat :| k <= |text| && OccursAt(text, term, k);
    before, after := text[..k], text[k + |term|..];
  }

  // ---- the store ------------------------------------------------------------------

  /** `importance` is absent when it is not a finite number, and `searchable` is the lower-case
      text of content, source and tags. */
  datatype Entry = Entry(id: nat, content: string, importance: Option<real>, searchable: string)

  function TrimStart(s: string): string { if s != "" && IsSpace(s[0]) then TrimStart(s[1..]) else s }

  function TrimEnd(s: string): string { if s != "" && IsSpace(s[|s| - 1]) then TrimEnd(s[..|s| - 1]) else s }

  function Normalize(e: Entry): Result<Entry, string> {
    var content := Trim(e.content);
    if e.importance.None? then Err("Memory importance must be finite")
    else if content == "" then Err("memory content cannot be empty")
    else
      var i := e.importance.value;
      Ok(e.(content := content, importance := Some(if i < 0.0 then 0.0 else if i > 1.0 then 1.0 else i)))
  }

  ghost predicate AllSpace(s: string) { forall i :: 0 <= i < |s| ==> IsSpace(s[i]) }

  /** Trimming takes white space off both ends and nothing else, and leaves none there. */
  lemma {:induction false} TrimStartMeaning(s: string) returns (cut: string)
    ensures s == cut + TrimStart(s) && AllSpace(cut)
    ensures TrimStart(s) != "" ==> !IsSpace(TrimStart(s)[0])
  {
    cut := "";
    if s != "" && IsSpace(s[0]) {
      cut := TrimStartMeaning(s[1..]);
      cut := [s[0]] + cut;
      assert s == [s[0]] + s[1..];
    }
  }

  lemma {:induction false} TrimEndMeaning(s: string) returns (cut: string)
    ensures s == TrimEnd(s) + cut && AllSpace(cut)
    ensures TrimEnd(s) != "" ==> !IsSpace(TrimEnd(s)[|TrimEnd(s)| - 1])
  {
    cut := "";
    if s != "" && IsSpace(s[|s| - 1]) {
      cut := TrimEndMeaning(s[..|s| - 1]);
      cut := cut + [s[|s| - 1]];
      assert s == s[..|s| - 1] + [s[|s| - 1]];
    }
  }

  function Trim(s: string): string { TrimEnd(TrimStart(s)) }

  lemma TrimMeaning(s: string) returns (before: string, after: string)
    ensures s == before + Trim(s) + after && AllSpace(before) && AllSpace(after)
    ensures Trim(s) == "" <==> AllSpace(s)
    ensures Trim(s) != "" ==> !IsSpace(Trim(s)[0]) && !IsSpace(Trim(s)[|Trim(s)| - 1])
  {
    before := TrimStartMeaning(s);
    after := TrimEndMeaning(TrimStart(s));
    var t := Trim(s);
    assert s == before + t + after;
    if t == "" {
      assert s == before + after;
    } else {
      assert t[0] == TrimStart(s)[0] && s[|before|] == t[0];
    }
  }

  /** A memory is acceptable exactly if its importance is a number and its content is not blank. Then
      the content loses the white space at its ends and nothing else, and the importance is moved
      into the range from nought to one. */
  lemma NormalizeMeaning(e: Entry) returns (before: string, after: string)
    ensures Normalize(e).Ok? <==> e.importance.Some? && !AllSpace(e.content)
    ensures Normalize(e).Ok? ==>
              var n := Normalize(e).value;
              && e.content == before + n.content + after && AllSpace(before) && AllSpace(after)
              && n.content != "" && !IsSpace(n.content[0]) && !IsSpace(n.content[|n.content| - 1])
              && n.id == e.id && n.searchable == e.searchable && InRange(e.importance.value, n.importance)
  {
    before, after := TrimMeaning(e.content);
  }

  /** The number between nought and one that is nearest. */
  predicate InRange(i: real, n: Option<real>) {
    && n.Some? && 0.0 <= n.value <= 1.0
    && (0.0 <= i <= 1.0 ==> n.value == i) && (i > 1.0 ==> n.value == 1.0) && (i < 0.0 ==> n.value == 0.0)
  }

  predicate SameMemory(a: Entry, b: Entry) { Lower(a.content) == Lower(b.content) }

  /** Two memories are the same exactly if their contents are equal up to the case of ASCII letters. */
  lemma SameExactly(a: Entry, b: Entry)
    ensures SameMemory(a, b) <==> EqualButForCase(a.content, b.content)
  {
    LowerExactly(a.content, b.content);
  }

  predicate Holds(store: seq<Entry>, e: Entry) { exists k :: 0 <= k < |store| && SameMemory(store[k], e) }

  /** The store after a batch, or the first problem in it. */
  function AddedTo(store: seq<Entry>, batch: seq<Entry>): Result<seq<Entry>, string> {
    if batch == [] then Ok(store)
    else
      var front, e := AddedTo(store, batch[..|batch| - 1]), Normalize(batch[|batch| - 1]);
      if front.Err? then front
      else if e.Err? then Err(e.error)
      else if Holds(front.value, e.value) then front
      else Ok(front.value + [e.value])
  }

  ghost predicate Distinct(store: seq<Entry>) {
    forall i, j :: 0 <= i < j < |store| ==> !SameMemory(store[i], store[j])
  }

  /** A batch that is accepted keeps what was there, adds only new memories, each once, and leaves
      none of its own out; and it is refused exactly when one of its entries is not acceptable. */
  lemma {:induction false} BatchMeaning(store: seq<Entry>, batch: seq<Entry>)
    ensures AddedTo(store, batch).Ok? <==> forall e :: e in batch ==> Normalize(e).Ok?
    ensures AddedTo(store, batch).Ok? ==>
              var next := AddedTo(store, batch).value;
              && store <= next && (Distinct(store) ==> Distinct(next))
              && (forall e :: e in batch ==> Holds(next, Normalize(e).value))
              && (forall k :: |store| <= k < |next| ==> exists e :: e in batch && Normalize(e) == Ok(next[k]))
  {
    if batch != [] {
      var front, e := batch[..|batch| - 1], batch[|batch| - 1];
      BatchMeaning(store, front);
      assert batch == front + [e];
      if AddedTo(store, front).Ok? && Normalize(e).Ok? {
        AddOne(store, front, e);
      }
    }
  }

  lemma AddOne(store: seq<Entry>, front: seq<Entry>, e: Entry)
    requires AddedTo(store, front).Ok? && Normalize(e).Ok?
    requires var next := AddedTo(store, front).value;
             && store <= next && (Distinct(store) ==> Distinct(next))
             && (forall e :: e in front ==> Normalize(e).Ok? && Holds(next, Normalize(e).value))
             && (forall k :: |store| <= k < |next| ==> exists e :: e in front && Normalize(e) == Ok(next[k]))
    ensures var batch := front + [e];
            && AddedTo(store, batch).Ok?
            && var next := AddedTo(store, batch).value;
               && store <= next && (Distinct(store) ==> Distinct(next))
               && (forall e :: e in batch ==> Normalize(e).Ok? && Holds(next, Normalize(e).value))
               && (forall k :: |store| <= k < |next| ==> exists e :: e in batch && Normalize(e) == Ok(next[k]))
  {
    var batch, next := front + [e], AddedTo(store, front).value;
    assert batch[..|batch| - 1] == front;
    var n := Normalize(e).value;
    if !Holds(next, n) {
      var more := next + [n];
      assert SameMemory(more[|next|], n);
      forall x | x in front
        ensures Holds(more, Normalize(x).value)
      {
        var k :| 0 <= k < |next| && SameMemory(next[k], Normalize(x).value);
        assert more[k] == next[k];
      }
    }
  }

  class MemoryStore {
    var memories: seq<Entry>
    var disk: seq<Entry>
    const available: bool

    /** An available store and its file say the same. */
    ghost predicate Valid()
      reads this
    {
      available ==> memories == disk
    }

    /** A file that cannot be read disables the store. */
    constructor (disk: seq<Entry>, readable: bool)
      ensures Valid() && this.disk == disk && available == readable && (!readable ==> memories == [])
    {
      this.disk, available := disk, readable;
      memories := if readable then disk else [];
    }

    /** The file is replaced as a whole or not at all; `writable` covers its size limit too. */
    method SaveEntries(next: seq<Entry>, writable: bool) returns (ok: bool)
      modifies this`disk
      ensures ok == (available && writable) && disk == if ok then next else old(disk)
    {
      ok := available && writable;
      if ok { disk := next; }
    }

    /** One commit for the whole batch. */
    method AddMany(entries: seq<Entry>, writable: bool) returns (r: Result<nat, string>)
      requires Valid()
      modifies this
      ensures Valid()
      ensures r.Err? ==> memories == old(memories) && disk == old(disk)
      ensures r.Ok? ==> Ok(memories) == AddedTo(old(memories), entries) && r.value == |memories| - |old(memories)|
      ensures var next := AddedTo(old(memories), entries);
              r.Ok? <==> available && next.Ok? && (writable || next.value == old(memories))
    {
      if !available { return Err("Memory is disabled"); }
      BatchMeaning(memories, entries);
      var next, added := memories, 0;
      for i := 0 to |entries|
        invariant memories == old(memories) && disk == old(disk)
        invariant AddedTo(memories, entries[..i]) == Ok(next) && memories <= next && added == |next| - |memories|
      {
        AddedPrefix(memories, entries, i);
        var entry := Normalize(entries[i]);
        if entry.Err? { return Err(entry.error); }
        if !Holds(next, entry.value) { next, added := next + [entry.value], added + 1; }
      }
      assert entries[..|entries|] == entries;
      assert added == 0 ==> next == memories;
      if added > 0 {
        var ok := SaveEntries(next, writable);
        if !ok { return Err("Memory file could not be written"); }
        memories := next;
      }
      r := Ok(added);
    }

    method Delete(id: nat, writable: bool) returns (r: Result<bool, string>)
      requires Valid()
      modifies this
      ensures Valid()
      ensures var found := exists e :: e in old(memories) && e.id == id;
              && (r.Ok? <==> available && (found ==> writable))
              && (r.Ok? ==> r.value == found)
              && memories == if r == Ok(true) then Others(old(memories), id) else old(memories)
      ensures r != Ok(true) ==> disk == old(disk)
    {
      if !available { return Err("Memory is disabled"); }
      var next := Others(memories, id);
      OthersMeaning(memories, id);
      OthersLength(memories, id);
      if |next| == |memories| { return Ok(false); }
      var ok := SaveEntries(next, writable);
      if !ok { return Err("Memory file could not be written"); }
      memories := next;
      r := Ok(true);
    }

    method Clear(writable: bool) returns (ok: bool)
      requires Valid()
      modifies this
      ensures Valid()
      ensures ok == (available && writable)
      ensures if ok then memories == [] else memories == old(memories) && disk == old(disk)
    {
      ok := SaveEntries([], writable);
      if ok { memories := []; }
    }

    /** The positions of the best matches. Against any full sort of all memories by score, the
        scores are its first positive ones, and no memory is returned twice. */
    method Search(terms: set<string>, limit: nat) returns (r: seq<nat>)
      ensures forall i, j :: 0 <= i < j < |r| ==> r[i] != r[j]
      ensures forall i :: 0 <= i < |r| ==> r[i] < |memories|
      ensures
        forall full: seq<Scored> :: SortOf(full, Rank(memories, terms)) ==>
          var n := if |Positive(full)| <= limit then |Positive(full)| else limit;
          |r| == n <= |full| && forall i :: 0 <= i < n ==> Score(memories[r[i]], terms) == full[i].score
    {
      var all := Rank(memories, terms);
      var found := Best(all, limit);
      Found(memories, terms, found);
      forall full: seq<Scored> | SortOf(full, all)
        ensures var n := if |Positive(full)| <= limit then |Positive(full)| else limit;
                |found| == n <= |full| && forall i :: 0 <= i < n ==> found[i].score == full[i].score
      {
        var n := if |Positive(full)| <= limit then |Positive(full)| else limit;
        assert |Scores(found)| == |found| && forall i :: 0 <= i < n ==> Scores(found)[i] == Scores(full)[i];
      }
      r := seq(|found|, k requires 0 <= k < |found| => found[k].memory);
    }
  }

  /** Selects, truncates, sorts, and only then drops what does not match. */
  method Best(all: seq<Scored>, limit: nat) returns (found: seq<Scored>)
    ensures multiset(found) <= multiset(all)
    ensures
      forall full :: SortOf(full, all) ==>
        var n := if |Positive(full)| <= limit then |Positive(full)| else limit;
        n <= |full| && Scores(found) == Scores(full)[..n]
  {
    var scored := all;
    var keep := if limit <= |scored| then limit else |scored|;
    if keep < |scored| { scored := Select(scored, keep); }
    ghost var selected := scored;
    scored := scored[..keep];
    SortSorts(scored);
    scored := Sort(scored);
    found := Take(Positive(scored), limit);
    ResultPart(all, selected, keep, scored, limit);
    forall full | SortOf(full, all)
      ensures var n := if |Positive(full)| <= limit then |Positive(full)| else limit;
              n <= |full| && Scores(found) == Scores(full)[..n]
    {
      SelectionAgrees(all, selected, limit, scored, full);
    }
  }

  lemma Found(store: seq<Entry>, terms: set<string>, found: seq<Scored>)
    requires multiset(found) <= multiset(Rank(store, terms))
    ensures forall i, j :: 0 <= i < j < |found| ==> found[i].memory != found[j].memory
    ensures forall i :: 0 <= i < |found| ==> found[i].memory < |store| && found[i].score == Score(store[found[i].memory], terms)
  {
    var s := Rank(store, terms);
    forall i, j | 0 <= i < j < |found|
      ensures found[i].memory != found[j].memory
    {
      NoneTwice(found, s, i, j);
    }
    forall i | 0 <= i < |found|
      ensures found[i] in s
    {
      assert found[i] in multiset(found) && found[i] in multiset(s);
    }
  }

  /** Puts the element of rank `keep` in its place. */
  method Select(s: seq<Scored>, keep: nat) returns (p: seq<Scored>)
    requires keep < |s|
    ensures SelectionOf(p, s, keep) && |p| == |s|
  {
    p := Sort(s);
    SortSorts(s);
    SameSize(p, s);
  }

  function Others(store: seq<Entry>, id: nat): seq<Entry> {
    if store == [] then []
    else
      var front := Others(store[..|store| - 1], id);
      if store[|store| - 1].id == id then front else front + [store[|store| - 1]]
  }

  /** Deleting removes every memory with the id and no other, and shortens the store exactly when there was one. */
  lemma {:induction false} OthersMeaning(store: seq<Entry>, id: nat)
    ensures forall e :: e in Others(store, id) <==> e in store && e.id != id
    ensures |Others(store, id)| <= |store|
    ensures |Others(store, id)| == |store| <==> Others(store, id) == store
  {
    if store != [] {
      OthersMeaning(store[..|store| - 1], id);
      assert store == store[..|store| - 1] + [store[|store| - 1]];
    }
  }

  lemma OthersLength(store: seq<Entry>, id: nat)
    ensures |Others(store, id)| == |store| <==> !exists e :: e in store && e.id == id
  {
    OthersMeaning(store, id);
    if exists e :: e in store && e.id == id {
      var e :| e in store && e.id == id;
      assert e !in Others(store, id);
    } else {
      OthersAll(store, id);
    }
  }

  lemma {:induction false} OthersAll(store: seq<Entry>, id: nat)
    requires forall e :: e in store ==> e.id != id
    ensures Others(store, id) == store
  {
    if store != [] {
      OthersAll(store[..|store| - 1], id);
      assert store[|store| - 1] in store;
    }
  }

  /** The memories that are left keep their order and number: deleting goes through the store piece by piece. */
  lemma {:induction false} OthersAppend(a: seq<Entry>, b: seq<Entry>, id: nat)
    ensures Others(a + b, id) == Others(a, id) + Others(b, id)
  {
    if b == [] {
      assert a + b == a;
    } else {
      assert (a + b)[..|a + b| - 1] == a + b[..|b| - 1];
      OthersAppend(a, b[..|b| - 1], id);
    }
  }

  lemma AddedPrefix(store: seq<Entry>, batch: seq<Entry>, i: nat)
    requires i < |batch|
    ensures AddedTo(store, batch[..i + 1]) ==
            (var front, e := AddedTo(store, batch[..i]), Normalize(batch[i]);
             if front.Err? then front
             else if e.Err? then Err(e.error)
             else if Holds(front.value, e.value) then front
             else Ok(front.value + [e.value]))
  {
    assert batch[..i + 1][..i] == batch[..i];
  }
}
