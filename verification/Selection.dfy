/** Streaming selection of training examples: a best-per-prompt map, a heap with lazy
    deletion and capacity eviction, then a budgeted final pass. */
module Selection {
  import opened Options
  import opened Texts

  /** An eligible interaction. `rank` is the evidence tuple as one number, no two
      interactions sharing it; `encoded` is the size of its record, if it is a valid one. */
  datatype Candidate = Candidate(
    key: string, rank: int, chars: nat, encoded: Option<nat>, recordChars: nat)

  datatype Group = Group(
    hasText: bool, fieldTooLarge: bool, hasGood: bool, contradictory: bool, private: bool, candidate: Candidate)

  datatype Reason =
    | EmptyContent | FieldTooLarge | NoGoodOutcome | Contradictory | Privacy | DuplicatePrompt | Capacity
    | InvalidRecord | RecordTooLarge | ExampleLimit | FileSizeLimit | ContentSizeLimit

  datatype Limits = Limits(examples: nat, retained: nat, recordBytes: nat, fileBytes: nat, totalChars: nat)

  // ----- the reference: sort and truncate -------------------------------------

  type Winners = map<string, Candidate>

  ghost predicate Below(c: Candidate, w: Winners) {
    forall k <- w :: c.rank < w[k].rank
  }

  ghost predicate Own(seen: set<Candidate>, w: Winners) {
    forall k <- w :: w[k] in seen && w[k].key == k
  }

  /** How a seen candidate stands to the winners: beaten by the winner of its own
      prompt, or by all of them when there is no room for its prompt. */
  ghost predicate Beaten(c: Candidate, n: nat, w: Winners) {
    if c.key in w then c.rank <= w[c.key].rank else |w| == n && Below(c, w)
  }

  /** `w` holds, for as many prompts as fit, the best candidate of each, and everything
      seen for any other prompt ranks below all of them. */
  ghost predicate IsTop(seen: set<Candidate>, n: nat, w: Winners) {
    |w| <= n && Own(seen, w) && forall c <- seen :: Beaten(c, n, w)
  }

  lemma ExtraKey(a: Winners, b: Winners, k: string) returns (j: string)
    requires |a| <= |b| && k in a && k !in b
    ensures j in b && j !in a
  {
    if b.Keys <= a.Keys {
      assert b.Keys <= a.Keys - {k};
      Smaller(b.Keys, a.Keys - {k});
      assert false;
    }
    j :| j in b.Keys && j !in a.Keys;
  }

  lemma Smaller<T>(a: set<T>, b: set<T>)
    requires a <= b
    ensures |a| <= |b|
  {
    if a != {} {
      var x :| x in a;
      Smaller(a - {x}, b - {x});
    }
  }

  lemma TopIncludes(seen: set<Candidate>, n: nat, a: Winners, b: Winners, k: string)
    requires IsTop(seen, n, a) && IsTop(seen, n, b) && k in a
    ensures k in b
  {
    if k !in b {
      assert Beaten(a[k], n, b);
      var j := ExtraKey(a, b, k);
    }
  }

  lemma TopAgrees(seen: set<Candidate>, n: nat, a: Winners, b: Winners, k: string)
    requires DistinctRanks(seen) && IsTop(seen, n, a) && IsTop(seen, n, b) && k in a
    ensures k in b && a[k] == b[k]
  {
    TopIncludes(seen, n, a, b, k);
    assert Beaten(a[k], n, b) && Beaten(b[k], n, a);
  }

  ghost predicate DistinctRanks(seen: set<Candidate>) {
    forall c <- seen, d <- seen | c.rank == d.rank :: c == d
  }

  /** The selection is determined by what was seen, not by the order of arrival. */
  lemma TopIsUnique(seen: set<Candidate>, n: nat, a: Winners, b: Winners)
    requires DistinctRanks(seen) && IsTop(seen, n, a) && IsTop(seen, n, b)
    ensures a == b
  {
    forall k | k in a ensures k in b && a[k] == b[k] {
      TopAgrees(seen, n, a, b, k);
    }
    forall k | k in b ensures k in a {
      TopAgrees(seen, n, b, a, k);
    }
  }

  /** The best candidate of each prompt. */
  ghost function Bests(seen: set<Candidate>): set<Candidate> {
    set c <- seen | forall d <- seen | d.key == c.key :: d.rank <= c.rank
  }

  ghost predicate Descending(s: seq<Candidate>) {
    forall i, j | 0 <= i < j < |s| :: s[i].rank > s[j].rank
  }

  ghost function Taken(s: seq<Candidate>, n: nat): Winners
    requires n <= |s|
  {
    if n == 0 then map[] else Taken(s, n - 1)[s[n - 1].key := s[n - 1]]
  }

  ghost predicate DistinctKeys(s: seq<Candidate>) {
    forall i, j | 0 <= i < j < |s| :: s[i].key != s[j].key
  }

  lemma {:induction false} TakenKeys(s: seq<Candidate>, n: nat)
    requires n <= |s|
    ensures forall k :: k in Taken(s, n) <==> exists i | 0 <= i < n :: s[i].key == k
    ensures forall k <- Taken(s, n) :: Taken(s, n)[k] in s[..n] && Taken(s, n)[k].key == k
  {
    if n > 0 {
      TakenKeys(s, n - 1);
      assert s[..n] == s[..n - 1] + [s[n - 1]];
    }
  }

  lemma {:induction false} TakenSize(s: seq<Candidate>, n: nat)
    requires n <= |s| && DistinctKeys(s)
    ensures |Taken(s, n)| == n
  {
    if n > 0 {
      TakenSize(s, n - 1);
      TakenKeys(s, n - 1);
      var last := s[n - 1].key;
      assert last !in Taken(s, n - 1);
      assert Taken(s, n).Keys == Taken(s, n - 1).Keys + {last};
    }
  }

  lemma BestExists(seen: set<Candidate>, c: Candidate) returns (b: Candidate)
    requires c in seen
    ensures b in Bests(seen) && b.key == c.key && c.rank <= b.rank
    decreases set d <- seen | d.rank > c.rank
  {
    if d :| d in seen && d.key == c.key && d.rank > c.rank {
      var above, higher := set x <- seen | x.rank > c.rank, set x <- seen | x.rank > d.rank;
      assert d in above && d !in higher && higher <= above;
      b := BestExists(seen, d);
    } else {
      b := c;
    }
  }

  /** The selection is the first `n` of the per-prompt bests sorted by rank. */
  lemma TopIsSortAndTruncate(seen: set<Candidate>, sorted: seq<Candidate>, n: nat, w: Winners)
    requires DistinctRanks(seen) && IsTop(seen, n, w)
    requires Descending(sorted) && (set c <- sorted) == Bests(seen)
    ensures w == Taken(sorted, if n <= |sorted| then n else |sorted|)
  {
    var m := if n <= |sorted| then n else |sorted|;
    forall i, j | 0 <= i < j < |sorted| ensures sorted[i].key != sorted[j].key {
      assert sorted[i] in Bests(seen) && sorted[j] in Bests(seen);
    }
    TakenIsTop(seen, sorted, n, m);
    TopIsUnique(seen, n, w, Taken(sorted, m));
  }

  lemma TakenIsTop(seen: set<Candidate>, sorted: seq<Candidate>, n: nat, m: nat)
    requires Descending(sorted) && (set c <- sorted) == Bests(seen)
    requires m == if n <= |sorted| then n else |sorted|
    requires DistinctKeys(sorted)
    ensures IsTop(seen, n, Taken(sorted, m))
  {
    var w := Taken(sorted, m);
    TakenSize(sorted, m);
    TakenKeys(sorted, m);
    forall k <- w ensures w[k] in Bests(seen) && w[k].key == k {
      assert w[k] in sorted[..m] && w[k] in sorted;
    }
    forall c <- seen ensures Beaten(c, n, w) {
      if c.key !in w {
        var b := BestExists(seen, c);
        assert b in (set x <- sorted);
        var i :| 0 <= i < |sorted| && sorted[i] == b;
        assert i >= m;
        forall k <- w ensures c.rank < w[k].rank {
          var j :| 0 <= j < m && sorted[j] == w[k];
        }
      }
    }
  }

  // ----- one candidate more -----------------------------------------------------

  predicate Lowest(w: Winners, k: string) {
    k in w && forall j <- w :: w[k].rank <= w[j].rank
  }

  lemma WorseDuplicate(seen: set<Candidate>, n: nat, w: Winners, c: Candidate)
    requires IsTop(seen, n, w) && c.key in w && c.rank <= w[c.key].rank
    ensures IsTop(seen + {c}, n, w)
  {
  }

  lemma BetterDuplicate(seen: set<Candidate>, n: nat, w: Winners, c: Candidate)
    requires IsTop(seen, n, w) && c.key in w && c.rank > w[c.key].rank
    ensures IsTop(seen + {c}, n, w[c.key := c])
  {
    var next := w[c.key := c];
    assert next.Keys == w.Keys;
    assert |next| == |next.Keys| == |w|;
    forall d <- seen ensures Beaten(d, n, next) {
      assert Beaten(d, n, w);
    }
  }

  lemma NewPromptFits(seen: set<Candidate>, n: nat, w: Winners, c: Candidate)
    requires IsTop(seen, n, w) && c.key !in w && |w| < n
    ensures IsTop(seen + {c}, n, w[c.key := c])
  {
    var next := w[c.key := c];
    assert next.Keys == w.Keys + {c.key};
    assert |next| == |next.Keys| == |w| + 1;
    forall d <- seen ensures Beaten(d, n, next) {
      assert Beaten(d, n, w);
    }
  }

  lemma NewPromptLoses(seen: set<Candidate>, n: nat, w: Winners, c: Candidate)
    requires IsTop(seen, n, w) && c.key !in w && |w| == n && Below(c, w)
    ensures IsTop(seen + {c}, n, w)
  {
  }

  lemma NewPromptWins(seen: set<Candidate>, n: nat, w: Winners, c: Candidate, k: string)
    requires IsTop(seen, n, w) && c.key !in w && |w| == n && k in w && w[k].rank < c.rank
    requires forall j <- w | j != k :: w[k].rank < w[j].rank
    ensures IsTop(seen + {c}, n, (w - {k})[c.key := c])
  {
    var rest := (w - {k})[c.key := c];
    assert rest.Keys == w.Keys - {k} + {c.key};
    assert |rest| == |rest.Keys| == n;
    forall d <- seen ensures Beaten(d, n, rest) {
      assert Beaten(d, n, w);
    }
  }

  /** What the lowest of the winners with `c` among them says about the others. */
  lemma LowestWith(seen: set<Candidate>, w: Winners, c: Candidate, k: string)
    requires Own(seen, w) && c.key !in w && DistinctRanks(seen + {c}) && c !in seen && Lowest(w[c.key := c], k)
    ensures k == c.key ==> Below(c, w)
    ensures k != c.key ==> k in w && w[k].rank < c.rank && forall j <- w | j != k :: w[k].rank < w[j].rank
  {
    var next := w[c.key := c];
    assert next[c.key] == c;
    forall j <- w ensures next[j] == w[j] && w[j] in seen && w[j].key == j {
    }
    if k == c.key {
      forall j <- w ensures c.rank < w[j].rank {
        assert next[k].rank <= next[j].rank;
      }
    } else {
      forall j <- w | j != k ensures w[k].rank < w[j].rank {
        assert next[k].rank <= next[j].rank;
      }
    }
  }

  lemma PutDrop(w: Winners, c: Candidate, k: string)
    requires c.key !in w && (k in w || k == c.key)
    ensures w[c.key := c] - {k} == if k == c.key then w else (w - {k})[c.key := c]
  {
  }

  lemma NewPromptOver(seen: set<Candidate>, n: nat, w: Winners, c: Candidate, k: string)
    requires IsTop(seen, n, w) && c.key !in w && |w| == n && DistinctRanks(seen + {c}) && c !in seen
    requires Lowest(w[c.key := c], k)
    ensures IsTop(seen + {c}, n, w[c.key := c] - {k})
  {
    LowestWith(seen, w, c, k);
    PutDrop(w, c, k);
    if k == c.key {
      NewPromptLoses(seen, n, w, c);
    } else {
      NewPromptWins(seen, n, w, c, k);
    }
  }

  // ----- the heap ---------------------------------------------------------------

  datatype Entry = Entry(rank: int, key: string)

  /** A priority queue: `heapq` seen from outside, lowest rank first. */
  ghost predicate Sorted(h: seq<Entry>) {
    forall i, j | 0 <= i < j < |h| :: h[i].rank <= h[j].rank
  }

  function Push(h: seq<Entry>, e: Entry): (r: seq<Entry>)
    requires Sorted(h)
    ensures Sorted(r) && |r| == |h| + 1
    ensures forall x :: x in r <==> x in h || x == e
  {
    if h == [] then [e]
    else if e.rank <= h[0].rank then [e] + h
    else
      var rest := Push(h[1..], e);
      assert forall x <- rest :: h[0].rank <= x.rank;
      assert h == [h[0]] + h[1..];
      [h[0]] + rest
  }

  ghost predicate Covers(h: seq<Entry>, w: Winners) {
    forall k <- w :: Entry(w[k].rank, k) in h
  }

  predicate Alive(e: Entry, w: Winners) {
    e.key in w && w[e.key].rank == e.rank
  }

  lemma HeadIsLowest(h: seq<Entry>, w: Winners)
    requires Sorted(h) && Covers(h, w) && w != map[]
    ensures h != [] && Sorted(h[1..])
    ensures if Alive(h[0], w) then Lowest(w, h[0].key) && Covers(h[1..], w - {h[0].key}) else Covers(h[1..], w)
  {
    var any :| any in w;
    assert Entry(w[any].rank, any) in h;
    forall k <- w ensures h[0].rank <= w[k].rank && (Entry(w[k].rank, k) == h[0] || Entry(w[k].rank, k) in h[1..]) {
      var i :| 0 <= i < |h| && h[i] == Entry(w[k].rank, k);
      if i > 0 {
        assert h[1..][i - 1] == h[i];
      }
    }
  }

  // ----- characters ---------------------------------------------------------------

  ghost function Chars(w: Winners): nat {
    if w == map[] then 0 else
      var k :| k in w;
      w[k].chars + Chars(w - {k})
  }

  /** The sum does not depend on the order it is taken in. */
  lemma CharsWithout(w: Winners, k: string)
    requires k in w
    ensures Chars(w) == w[k].chars + Chars(w - {k})
  {
    var j :| j in w && Chars(w) == w[j].chars + Chars(w - {j});
    if j != k {
      CharsWithout(w - {j}, k);
      CharsWithout(w - {k}, j);
      assert w - {j} - {k} == w - {k} - {j};
    }
  }

  lemma CharsWith(w: Winners, c: Candidate)
    requires c.key !in w
    ensures Chars(w[c.key := c]) == Chars(w) + c.chars
  {
    CharsWithout(w[c.key := c], c.key);
    assert w[c.key := c] - {c.key} == w;
  }

  lemma CharsReplaced(w: Winners, c: Candidate)
    requires c.key in w
    ensures Chars(w[c.key := c]) == Chars(w) - w[c.key].chars + c.chars
  {
    CharsWithout(w, c.key);
    CharsWithout(w[c.key := c], c.key);
    assert w[c.key := c] - {c.key} == w - {c.key};
  }

  lemma Put(w: Winners, c: Candidate)
    ensures |w[c.key := c]| == |w| + if c.key in w then 0 else 1
    ensures Chars(w[c.key := c]) == Chars(w) + c.chars - if c.key in w then w[c.key].chars else 0
  {
    var next := w[c.key := c];
    if c.key in w {
      CharsReplaced(w, c);
      assert next.Keys == w.Keys;
    } else {
      CharsWith(w, c);
      assert next.Keys == w.Keys + {c.key};
    }
    assert |next| == |next.Keys|;
  }

  lemma SmallerMap(w: Winners, k: string)
    requires k in w
    ensures |w - {k}| == |w| - 1
  {
    assert (w - {k}).Keys == w.Keys - {k};
    assert |w.Keys| == |w| && |(w - {k}).Keys| == |w - {k}|;
  }

  // ----- the stream as a fold ------------------------------------------------------

  ghost predicate KeyedByPrompt(w: Winners) {
    forall k <- w :: w[k].key == k
  }

  ghost predicate RanksApart(w: Winners) {
    forall j <- w, k <- w | w[j].rank == w[k].rank :: j == k
  }

  lemma LowestExists(w: Winners) returns (k: string)
    requires w != map[]
    ensures Lowest(w, k)
    decreases |w|
  {
    k :| k in w;
    var rest := w - {k};
    forall i <- w ensures i == k || (i in rest && rest[i] == w[i]) {
    }
    if rest != map[] {
      SmallerMap(w, k);
      var j := LowestExists(rest);
      assert forall i <- rest :: rest[j].rank <= rest[i].rank;
      if w[j].rank < w[k].rank {
        k := j;
      }
    }
  }

  ghost function LowestKey(w: Winners): (k: string)
    requires w != map[]
    ensures Lowest(w, k)
  {
    assert exists k :: Lowest(w, k) by {
      var k := LowestExists(w);
    }
    var k :| Lowest(w, k);
    k
  }

  predicate Fits(size: nat, chars: int, l: Limits) {
    size <= l.examples && chars <= l.retained
  }

  /** Evict the lowest until both capacities hold. */
  ghost function Squeeze(w: Winners, l: Limits): Winners
    decreases |w|
  {
    if Fits(|w|, Chars(w), l) || w == map[] then w
    else
      SmallerMap(w, LowestKey(w));
      Squeeze(w - {LowestKey(w)}, l)
  }

  /** The best candidate per prompt, one candidate further. */
  ghost function Offer(w: Winners, c: Candidate): Winners {
    if c.key in w && c.rank <= w[c.key].rank then w else w[c.key := c]
  }

  ghost function Stream(cs: seq<Candidate>, l: Limits): Winners {
    if cs == [] then map[] else Squeeze(Offer(Stream(cs[..|cs| - 1], l), cs[|cs| - 1]), l)
  }

  /** One eviction for the number of examples, if that is exceeded. */
  ghost function Trimmed(w: Winners, l: Limits): Winners {
    if |w| > l.examples && w != map[] then w - {LowestKey(w)} else w
  }

  /** The character cap has to evict something that the number of examples would keep. */
  ghost predicate CapBinds(cs: seq<Candidate>, l: Limits) {
    cs != []
    && (CapBinds(cs[..|cs| - 1], l)
        || Chars(Trimmed(Offer(Stream(cs[..|cs| - 1], l), cs[|cs| - 1]), l)) > l.retained)
  }

  ghost function Seen(cs: seq<Candidate>): set<Candidate> {
    set c <- cs
  }

  ghost predicate DistinctIds(cs: seq<Candidate>) {
    forall i, j | 0 <= i < j < |cs| :: cs[i].rank != cs[j].rank
  }

  lemma SeenMore(cs: seq<Candidate>)
    requires cs != [] && DistinctIds(cs)
    ensures var before, c := cs[..|cs| - 1], cs[|cs| - 1];
            && Seen(cs) == Seen(before) + {c} && c !in Seen(before)
            && DistinctIds(before) && DistinctRanks(Seen(cs)) && DistinctRanks(Seen(before))
  {
    assert cs == cs[..|cs| - 1] + [cs[|cs| - 1]];
  }

  lemma OfferTop(seen: set<Candidate>, n: nat, w: Winners, c: Candidate)
    requires IsTop(seen, n, w) && DistinctRanks(seen + {c}) && c !in seen
    ensures var next := Offer(w, c);
            if |next| <= n || next == map[] then IsTop(seen + {c}, n, next)
            else |next| == n + 1 && IsTop(seen + {c}, n, next - {LowestKey(next)})
  {
    var next := Offer(w, c);
    if c.key in w {
      assert w[c.key := c].Keys == w.Keys;
      assert |w[c.key := c].Keys| == |w[c.key := c]| && |w.Keys| == |w|;
      if c.rank <= w[c.key].rank {
        WorseDuplicate(seen, n, w, c);
      } else {
        BetterDuplicate(seen, n, w, c);
      }
    } else {
      assert next.Keys == w.Keys + {c.key};
      assert |next.Keys| == |next| == |w| + 1;
      if |w| < n {
        NewPromptFits(seen, n, w, c);
      } else {
        NewPromptOver(seen, n, w, c, LowestKey(next));
      }
    }
  }

  lemma SqueezeIsTrim(w: Winners, l: Limits)
    requires |w| <= l.examples + 1 && Chars(Trimmed(w, l)) <= l.retained
    ensures Squeeze(w, l) == Trimmed(w, l)
  {
    if |w| > l.examples && w != map[] {
      var k := LowestKey(w);
      SmallerMap(w, k);
      assert Squeeze(w - {k}, l) == w - {k};
    }
  }

  /** The streaming selection with lazy eviction refines sort-and-truncate: as long as
      the character cap does not bind it ends with exactly the best-ranked bests. */
  lemma {:induction false} StreamIsTop(cs: seq<Candidate>, l: Limits)
    requires DistinctIds(cs) && !CapBinds(cs, l)
    ensures IsTop(Seen(cs), l.examples, Stream(cs, l))
  {
    if cs != [] {
      var before, c := cs[..|cs| - 1], cs[|cs| - 1];
      SeenMore(cs);
      StreamIsTop(before, l);
      var w := Stream(before, l);
      OfferTop(Seen(before), l.examples, w, c);
      SqueezeIsTrim(Offer(w, c), l);
    }
  }

  /** Any two orders of arrival that avoid the cap select the same examples. */
  lemma OrderDoesNotMatter(a: seq<Candidate>, b: seq<Candidate>, l: Limits)
    requires DistinctIds(a) && DistinctIds(b) && Seen(a) == Seen(b)
    requires !CapBinds(a, l) && !CapBinds(b, l)
    ensures Stream(a, l) == Stream(b, l)
  {
    StreamIsTop(a, l);
    StreamIsTop(b, l);
    if a != [] {
      SeenMore(a);
    }
    TopIsUnique(Seen(a), l.examples, Stream(a, l), Stream(b, l));
  }

  ghost function TotalChars(cs: seq<Candidate>): nat {
    if cs == [] then 0 else TotalChars(cs[..|cs| - 1]) + cs[|cs| - 1].chars
  }

  lemma OfferChars(w: Winners, c: Candidate)
    ensures Chars(Offer(w, c)) <= Chars(w) + c.chars
  {
    if c.key in w {
      CharsReplaced(w, c);
      CharsWithout(w, c.key);
    } else {
      CharsWith(w, c);
    }
  }

  lemma SqueezeChars(w: Winners, l: Limits)
    ensures Chars(Squeeze(w, l)) <= Chars(w)
    ensures |Squeeze(w, l)| <= |w| && Fits(|Squeeze(w, l)|, Chars(Squeeze(w, l)), l)
    decreases |w|
  {
    if !Fits(|w|, Chars(w), l) && w != map[] {
      var k := LowestKey(w);
      SmallerMap(w, k);
      CharsWithout(w, k);
      SqueezeChars(w - {k}, l);
    }
  }

  /** The cap cannot bind while everything offered fits under it. */
  lemma {:induction false} CapHasRoom(cs: seq<Candidate>, l: Limits)
    requires TotalChars(cs) <= l.retained
    ensures !CapBinds(cs, l) && Chars(Stream(cs, l)) <= TotalChars(cs)
  {
    if cs != [] {
      var before, c := cs[..|cs| - 1], cs[|cs| - 1];
      CapHasRoom(before, l);
      var w := Offer(Stream(before, l), c);
      OfferChars(Stream(before, l), c);
      SqueezeChars(w, l);
      if w != map[] {
        CharsWithout(w, LowestKey(w));
      }
    }
  }

  lemma StreamSnoc(cs: seq<Candidate>, c: Candidate, l: Limits)
    ensures Stream(cs + [c], l) == Squeeze(Offer(Stream(cs, l), c), l)
  {
    assert (cs + [c])[..|cs|] == cs;
  }

  lemma SqueezeSub(w: Winners, l: Limits)
    ensures forall k <- Squeeze(w, l) :: k in w && Squeeze(w, l)[k] == w[k]
    decreases |w|
  {
    if !Fits(|w|, Chars(w), l) && w != map[] {
      SmallerMap(w, LowestKey(w));
      SqueezeSub(w - {LowestKey(w)}, l);
    }
  }

  lemma {:induction false} StreamFrom(cs: seq<Candidate>, l: Limits)
    ensures forall k <- Stream(cs, l) :: Stream(cs, l)[k] in cs && Stream(cs, l)[k].key == k
  {
    if cs != [] {
      var before, c := cs[..|cs| - 1], cs[|cs| - 1];
      StreamFrom(before, l);
      SqueezeSub(Offer(Stream(before, l), c), l);
      assert cs == before + [c];
    }
  }

  // ----- the final pass -------------------------------------------------------------------

  /** Why a finished interaction is not even considered. */
  function Ineligible(g: Group): Option<Reason> {
    if !g.hasText then Some(EmptyContent)
    else if g.fieldTooLarge then Some(FieldTooLarge)
    else if !g.hasGood then Some(NoGoodOutcome)
    else if g.contradictory then Some(Contradictory)
    else if g.private then Some(Privacy)
    else None
  }

  /** Reasons an interaction can be refused for on its own. */
  predicate Early(r: Reason) {
    r.EmptyContent? || r.FieldTooLarge? || r.NoGoodOutcome? || r.Contradictory? || r.Privacy?
  }

  /** How many of the interactions are refused for this reason on their own. */
  function CountOf(groups: seq<Group>, r: Reason): nat {
    if groups == [] then 0
    else CountOf(groups[..|groups| - 1], r) + if Ineligible(groups[|groups| - 1]) == Some(r) then 1 else 0
  }

  predicate ValidRecord(c: Candidate, l: Limits) {
    c.encoded.Some? && c.encoded.value <= l.recordBytes
  }

  function Bytes(s: seq<Candidate>): nat {
    if s == [] then 0
    else Bytes(s[..|s| - 1]) + if s[|s| - 1].encoded.Some? then s[|s| - 1].encoded.value else 0
  }

  function RecordChars(s: seq<Candidate>): nat {
    if s == [] then 0 else RecordChars(s[..|s| - 1]) + s[|s| - 1].recordChars
  }

  predicate Overflows(s: seq<Candidate>, c: Candidate, l: Limits) {
    || Bytes(s) + (if c.encoded.Some? then c.encoded.value else 0) > l.fileBytes
    || RecordChars(s) + c.recordChars > l.totalChars
  }

  /** A winner left out of `accepted` is no valid record, or does not fit beside the
      better-ranked ones that were accepted. */
  ghost predicate LeftOutFairly(c: Candidate, accepted: seq<Candidate>, l: Limits) {
    || !ValidRecord(c, l)
    || exists p: nat | p <= |accepted| ::
         Overflows(accepted[..p], c, l) && forall i | 0 <= i < p :: accepted[i].rank > c.rank
  }

  lemma StillFair(c: Candidate, accepted: seq<Candidate>, d: Candidate, l: Limits)
    requires LeftOutFairly(c, accepted, l)
    ensures LeftOutFairly(c, accepted + [d], l)
  {
    if ValidRecord(c, l) {
      var p: nat :| p <= |accepted| && Overflows(accepted[..p], c, l)
                    && forall i | 0 <= i < p :: accepted[i].rank > c.rank;
      assert (accepted + [d])[..p] == accepted[..p];
    }
  }

  lemma Snoc(s: seq<Candidate>, c: Candidate)
    ensures Bytes(s + [c]) == Bytes(s) + if c.encoded.Some? then c.encoded.value else 0
    ensures RecordChars(s + [c]) == RecordChars(s) + c.recordChars
  {
    assert (s + [c])[..|s|] == s;
  }

  /** Besides evictions, exactly the given reason was counted once more. */
  ghost predicate OnlyMore(before: multiset<Reason>, after: multiset<Reason>, why: Option<Reason>) {
    forall r: Reason | r != Capacity :: after[r] == before[r] + if why == Some(r) then 1 else 0
  }

  ghost predicate NewRank(c: Candidate, w: Winners) {
    forall k <- w :: w[k].rank != c.rank
  }

  lemma PushOrdered(h: seq<Entry>, w: Winners, c: Candidate)
    requires Sorted(h) && Covers(h, w) && RanksApart(w) && NewRank(c, w) && KeyedByPrompt(w)
    ensures var next := w[c.key := c];
            Covers(Push(h, Entry(c.rank, c.key)), next) && RanksApart(next) && KeyedByPrompt(next)
  {
  }

  // ----- the selector ------------------------------------------------------------------

  class Selector {
    const limits: Limits
    var winners: Winners
    var ranked: seq<Entry>
    var retained: int
    var rejected: multiset<Reason>
    var eligible: nat
    ghost var groups: nat

    /** Conservation: every group is a live winner or has one primary reason, and the
        retained characters are those of the live winners. */
    ghost predicate Accounted()
      reads this
    {
      && retained == Chars(winners)
      && groups == |winners| + |rejected|
      && ExampleLimit !in rejected
    }

    ghost predicate Ordered()
      reads this
    {
      Sorted(ranked) && Covers(ranked, winners) && RanksApart(winners)
    }

    ghost predicate Valid()
      reads this
    {
      && Accounted() && Ordered() && KeyedByPrompt(winners)
      && Fits(|winners|, retained, limits)
    }

    constructor (l: Limits)
      ensures Valid() && limits == l && groups == 0 && winners == map[] && rejected == multiset{} && eligible == 0
    {
      limits := l;
      winners, ranked, retained, rejected := map[], [], 0, multiset{};
      eligible, groups := 0, 0;
    }

    /** The lowest live entry; dead ones are dropped on the way. That the heap never
        runs empty first is the in-range proof of each `ranked[0]`. */
    method PopLive() returns (e: Entry)
      requires Sorted(ranked) && Covers(ranked, winners) && winners != map[]
      modifies this`ranked
      ensures Alive(e, winners) && Lowest(winners, e.key)
      ensures Sorted(ranked) && Covers(ranked, winners - {e.key})
    {
      HeadIsLowest(ranked, winners);
      e, ranked := ranked[0], ranked[1..];
      while !Alive(e, winners)
        invariant Sorted(ranked)
        invariant if Alive(e, winners) then Lowest(winners, e.key) && Covers(ranked, winners - {e.key})
                  else Covers(ranked, winners)
        decreases |ranked|
      {
        HeadIsLowest(ranked, winners);
        e, ranked := ranked[0], ranked[1..];
      }
    }

    method Drop(k: string)
      requires k in winners && Accounted()
      modifies this`winners, this`retained, this`rejected
      ensures Accounted() && winners == old(winners) - {k} && |winners| == |old(winners)| - 1
      ensures OnlyMore(old(rejected), rejected, None)
    {
      SmallerMap(winners, k);
      CharsWithout(winners, k);
      retained := retained - winners[k].chars;
      winners := winners - {k};
      rejected := rejected + multiset{Capacity};
    }

    /** Evicts until both capacities hold. */
    method Evict()
      requires Accounted() && Ordered()
      modifies this`winners, this`ranked, this`retained, this`rejected
      ensures Accounted() && Ordered() && winners == Squeeze(old(winners), limits)
      ensures OnlyMore(old(rejected), rejected, None)
    {
      while |winners| > limits.examples || retained > limits.retained
        invariant Accounted() && Ordered() && Squeeze(old(winners), limits) == Squeeze(winners, limits)
        invariant OnlyMore(old(rejected), rejected, None)
        decreases |winners|
      {
        assert winners != map[] by {
          assert Chars(map[]) == 0;
        }
        var worst := PopLive();
        assert worst.key == LowestKey(winners);
        Drop(worst.key);
      }
    }

    /** Finishes one interaction: at most one primary reason, or a place among the
        winners, possibly at the cost of another. */
    method FinalizeGroup(g: Group)
      requires Valid() && (Ineligible(g).None? ==> NewRank(g.candidate, winners))
      modifies this
      ensures Valid() && groups == old(groups) + 1
      ensures eligible == old(eligible) + if Ineligible(g).None? then 1 else 0
      ensures var why := Ineligible(g);
              if why.Some? then rejected == old(rejected) + multiset{why.value} && winners == old(winners)
              else winners == Squeeze(Offer(old(winners), g.candidate), limits)
                   && OnlyMore(old(rejected), rejected,
                               if g.candidate.key in old(winners) then Some(DuplicatePrompt) else None)
    {
      groups := groups + 1;
      if !g.hasText {
        rejected := rejected + multiset{EmptyContent};
        return;
      }
      if g.fieldTooLarge {
        rejected := rejected + multiset{FieldTooLarge};
        return;
      }
      if !g.hasGood {
        rejected := rejected + multiset{NoGoodOutcome};
        return;
      }
      if g.contradictory {
        rejected := rejected + multiset{Contradictory};
        return;
      }
      if g.private {
        rejected := rejected + multiset{Privacy};
        return;
      }
      eligible := eligible + 1;
      Consider(g.candidate);
    }

    /** Puts a candidate in, after its predecessor's characters were given back. */
    method Install(c: Candidate)
      requires Ordered() && KeyedByPrompt(winners) && NewRank(c, winners)
      requires retained + c.chars == Chars(winners[c.key := c])
      requires groups == |winners[c.key := c]| + |rejected| && ExampleLimit !in rejected
      modifies this`winners, this`ranked, this`retained
      ensures Accounted() && Ordered() && KeyedByPrompt(winners) && winners == old(winners)[c.key := c]
    {
      PushOrdered(ranked, winners, c);
      winners := winners[c.key := c];
      retained := retained + c.chars;
      ranked := Push(ranked, Entry(c.rank, c.key));
    }

    /** Puts a candidate in and restores the capacities. */
    method Admit(c: Candidate)
      requires Ordered() && KeyedByPrompt(winners) && NewRank(c, winners)
      requires retained + c.chars == Chars(winners[c.key := c])
      requires groups == |winners[c.key := c]| + |rejected| && ExampleLimit !in rejected
      modifies this`winners, this`ranked, this`retained, this`rejected
      ensures Accounted() && Ordered() && KeyedByPrompt(winners) && Fits(|winners|, retained, limits)
      ensures winners == Squeeze(old(winners)[c.key := c], limits)
      ensures OnlyMore(old(rejected), rejected, None)
    {
      Install(c);
      SqueezeChars(winners, limits);
      SqueezeSub(winners, limits);
      Evict();
    }

    method Consider(c: Candidate)
      requires Ordered() && KeyedByPrompt(winners) && Fits(|winners|, retained, limits)
      requires retained == Chars(winners) && groups == |winners| + |rejected| + 1 && ExampleLimit !in rejected
      requires NewRank(c, winners)
      modifies this`winners, this`ranked, this`retained, this`rejected
      ensures Accounted() && Ordered() && KeyedByPrompt(winners) && Fits(|winners|, retained, limits)
      ensures winners == Squeeze(Offer(old(winners), c), limits)
      ensures OnlyMore(old(rejected), rejected, if c.key in old(winners) then Some(DuplicatePrompt) else None)
    {
      Put(winners, c);
      OneMore(rejected);
      if c.key in winners {
        rejected := rejected + multiset{DuplicatePrompt};
        if c.rank <= winners[c.key].rank {
          return;
        }
        retained := retained - winners[c.key].chars;
      }
      ghost var before := rejected;
      Admit(c);
      OnlyMoreThen(old(rejected), before, rejected, if c.key in old(winners) then Some(DuplicatePrompt) else None);
    }
  }

  lemma OneMore(a: multiset<Reason>)
    ensures OnlyMore(a, a, None) && OnlyMore(a, a + multiset{DuplicatePrompt}, Some(DuplicatePrompt))
    ensures |a + multiset{DuplicatePrompt}| == |a| + 1
  {
  }

  lemma OnlyMoreThen(a: multiset<Reason>, b: multiset<Reason>, c: multiset<Reason>, why: Option<Reason>)
    requires OnlyMore(a, b, why) && OnlyMore(b, c, None)
    ensures OnlyMore(a, c, why)
  {
  }

  ghost predicate Under(c: Candidate, w: Winners) {
    forall k <- w :: c.rank < w[k].rank
  }

  method TakeLowest(w: Winners) returns (k: string, c: Candidate, rest: Winners)
    requires w != map[] && RanksApart(w)
    ensures k in w && c == w[k] && rest == w - {k} && |rest| == |w| - 1
    ensures Lowest(w, k) && Under(c, rest)
  {
    ghost var low := LowestExists(w);
    k :| k in w && Lowest(w, k);
    c, rest := w[k], w - {k};
    SmallerMap(w, k);
  }

  ghost predicate Lists(s: seq<Candidate>, w: Winners) {
    && |s| == |w|
    && (forall c <- s :: c.key in w && w[c.key] == c)
    && (forall k <- w :: w[k] in s)
  }

  /** The winners, best first. */
  method Ranked(w: Winners) returns (s: seq<Candidate>)
    requires KeyedByPrompt(w) && RanksApart(w)
    ensures Lists(s, w) && Descending(s)
    decreases |w|
  {
    if w == map[] {
      return [];
    }
    var k, low, rest := TakeLowest(w);
    var higher := Ranked(rest);
    s := higher + [low];
    ListsOneMore(w, k, rest, higher);
  }

  lemma ListsOneMore(w: Winners, k: string, rest: Winners, higher: seq<Candidate>)
    requires k in w && w[k].key == k && rest == w - {k} && |rest| == |w| - 1
    requires Lists(higher, rest) && Descending(higher) && Under(w[k], rest)
    ensures Lists(higher + [w[k]], w) && Descending(higher + [w[k]])
  {
    var all := higher + [w[k]];
    forall i | 0 <= i < |higher|
      ensures higher[i].rank > w[k].rank && higher[i].key in w && w[higher[i].key] == higher[i]
    {
      assert higher[i] in higher;
    }
    forall j <- w ensures w[j] in all {
      if j != k {
        assert rest[j] == w[j] && rest[j] in higher;
      }
    }
  }

  /** The records of one budgeted pass. */
  ghost predicate WithinBudget(accepted: seq<Candidate>, l: Limits) {
    && |accepted| <= l.examples && Bytes(accepted) <= l.fileBytes && RecordChars(accepted) <= l.totalChars
    && forall c <- accepted :: ValidRecord(c, l)
  }

  /** The final pass as a fold: what it accepts and why it refuses the rest. */
  function Pass(sorted: seq<Candidate>, l: Limits): (seq<Candidate>, multiset<Reason>) {
    if sorted == [] then ([], multiset{})
    else
      var (accepted, why) := Pass(sorted[..|sorted| - 1], l);
      var c := sorted[|sorted| - 1];
      match Refusal(accepted, c, l)
      case Some(reason) => (accepted, why + multiset{reason})
      case None => (accepted + [c], why)
  }

  /** The loop of the final pass, with its running totals. */
  method Accept(sorted: seq<Candidate>, l: Limits) returns (accepted: seq<Candidate>, why: multiset<Reason>)
    ensures (accepted, why) == Pass(sorted, l)
  {
    accepted, why := [], multiset{};
    var payloadBytes, payloadChars := 0, 0;
    for n := 0 to |sorted|
      invariant (accepted, why) == Pass(sorted[..n], l)
      invariant payloadBytes == Bytes(accepted) && payloadChars == RecordChars(accepted)
    {
      var c := sorted[n];
      assert sorted[..n + 1][..n] == sorted[..n];
      Snoc(accepted, c);
      if c.encoded.None? {
        why := why + multiset{InvalidRecord};
      } else if c.encoded.value > l.recordBytes {
        why := why + multiset{RecordTooLarge};
      } else if |accepted| >= l.examples {
        why := why + multiset{ExampleLimit};
      } else if payloadBytes + c.encoded.value > l.fileBytes {
        why := why + multiset{FileSizeLimit};
      } else if payloadChars + c.recordChars > l.totalChars {
        why := why + multiset{ContentSizeLimit};
      } else {
        accepted := accepted + [c];
        payloadBytes, payloadChars := payloadBytes + c.encoded.value, payloadChars + c.recordChars;
      }
    }
    assert sorted[..|sorted|] == sorted;
  }

  /** The pass keeps to every ceiling, accounts for each winner, and never runs into the
      limit on examples, because there are not more winners than that. */
  lemma {:induction false} PassStaysWithin(sorted: seq<Candidate>, l: Limits)
    requires |sorted| <= l.examples
    ensures var (accepted, why) := Pass(sorted, l);
            && WithinBudget(accepted, l) && |accepted| + |why| == |sorted| && ExampleLimit !in why
            && (forall c <- accepted :: c in sorted) && (forall r <- why :: !Early(r))
  {
    if sorted != [] {
      var before, c := sorted[..|sorted| - 1], sorted[|sorted| - 1];
      PassStaysWithin(before, l);
      assert sorted == before + [c];
      Snoc(Pass(before, l).0, c);
    }
  }

  /** What was accepted so far ranks above the next winner. */
  lemma {:induction false} PassRanks(sorted: seq<Candidate>, l: Limits)
    requires sorted != [] && |sorted| <= l.examples && Descending(sorted)
    ensures forall d <- Pass(sorted[..|sorted| - 1], l).0 :: d.rank > sorted[|sorted| - 1].rank
  {
    var before := sorted[..|sorted| - 1];
    PassStaysWithin(before, l);
    forall d <- Pass(before, l).0 ensures d.rank > sorted[|sorted| - 1].rank {
      var i :| 0 <= i < |before| && before[i] == d;
      assert sorted[i] == d;
    }
  }

  lemma {:induction false} PassDescends(sorted: seq<Candidate>, l: Limits)
    requires |sorted| <= l.examples && Descending(sorted)
    ensures Descending(Pass(sorted, l).0)
  {
    if sorted != [] {
      PassDescends(sorted[..|sorted| - 1], l);
      PassRanks(sorted, l);
    }
  }

  lemma FairAmong(d: Candidate, accepted: seq<Candidate>, c: Candidate, l: Limits)
    requires d in accepted || LeftOutFairly(d, accepted, l)
    ensures d in accepted + [c] || LeftOutFairly(d, accepted + [c], l)
  {
    if d !in accepted {
      StillFair(d, accepted, c, l);
    }
  }

  lemma RefusedFairly(accepted: seq<Candidate>, c: Candidate, l: Limits)
    requires |accepted| < l.examples && Refusal(accepted, c, l).Some? && forall d <- accepted :: d.rank > c.rank
    ensures LeftOutFairly(c, accepted, l)
  {
    assert accepted[..|accepted|] == accepted;
    assert forall i | 0 <= i < |accepted| :: accepted[i] in accepted;
    assert !ValidRecord(c, l) || Overflows(accepted[..|accepted|], c, l);
  }

  /** Only what is invalid or does not fit beside better-ranked records is left out. */
  lemma {:induction false} PassIsFair(sorted: seq<Candidate>, l: Limits)
    requires |sorted| <= l.examples && Descending(sorted)
    ensures forall c <- sorted :: c in Pass(sorted, l).0 || LeftOutFairly(c, Pass(sorted, l).0, l)
  {
    if sorted != [] {
      var before, c := sorted[..|sorted| - 1], sorted[|sorted| - 1];
      var accepted := Pass(before, l).0;
      PassIsFair(before, l);
      PassStaysWithin(before, l);
      PassRanks(sorted, l);
      assert sorted == before + [c];
      if Refusal(accepted, c, l).Some? {
        RefusedFairly(accepted, c, l);
      } else {
        forall d <- before ensures d in accepted + [c] || LeftOutFairly(d, accepted + [c], l) {
          FairAmong(d, accepted, c, l);
        }
      }
    }
  }

  /** The checks of the final pass, in order. */
  function Refusal(accepted: seq<Candidate>, c: Candidate, l: Limits): Option<Reason> {
    if c.encoded.None? then Some(InvalidRecord)
    else if c.encoded.value > l.recordBytes then Some(RecordTooLarge)
    else if |accepted| >= l.examples then Some(ExampleLimit)
    else if Bytes(accepted) + c.encoded.value > l.fileBytes then Some(FileSizeLimit)
    else if RecordChars(accepted) + c.recordChars > l.totalChars then Some(ContentSizeLimit)
    else None
  }

  // ----- the whole selection --------------------------------------------------------------

  function Eligible(groups: seq<Group>): seq<Candidate> {
    if groups == [] then []
    else Eligible(groups[..|groups| - 1])
         + if Ineligible(groups[|groups| - 1]).None? then [groups[|groups| - 1].candidate] else []
  }

  ghost predicate DistinctInteractions(groups: seq<Group>) {
    forall i, j | 0 <= i < j < |groups| && Ineligible(groups[i]).None? && Ineligible(groups[j]).None? ::
      groups[i].candidate.rank != groups[j].candidate.rank
  }

  lemma EligibleFrom(groups: seq<Group>)
    ensures forall c <- Eligible(groups) ::
              exists i | 0 <= i < |groups| :: groups[i].candidate == c && Ineligible(groups[i]).None?
  {
    if groups != [] {
      var n := |groups| - 1;
      EligibleFrom(groups[..n]);
      forall c <- Eligible(groups)
        ensures exists i | 0 <= i < |groups| :: groups[i].candidate == c && Ineligible(groups[i]).None?
      {
        if c in Eligible(groups[..n]) {
          var i :| 0 <= i < n && groups[..n][i].candidate == c && Ineligible(groups[..n][i]).None?;
          assert groups[i].candidate == c;
        } else {
          assert groups[n].candidate == c;
        }
      }
    }
  }

  lemma EligibleRanks(groups: seq<Group>, n: nat)
    requires n < |groups| && DistinctInteractions(groups) && Ineligible(groups[n]).None?
    ensures forall d <- Eligible(groups[..n]) :: d.rank != groups[n].candidate.rank
  {
    EligibleFrom(groups[..n]);
    forall d <- Eligible(groups[..n]) ensures d.rank != groups[n].candidate.rank {
      var i :| 0 <= i < n && groups[..n][i].candidate == d && Ineligible(groups[..n][i]).None?;
      assert groups[i].candidate == d;
    }
  }

  lemma NextGroup(groups: seq<Group>, n: nat, l: Limits)
    requires n < |groups| && DistinctInteractions(groups)
    ensures var w, next := Stream(Eligible(groups[..n]), l), Stream(Eligible(groups[..n + 1]), l);
            if Ineligible(groups[n]).Some? then next == w
            else NewRank(groups[n].candidate, w) && next == Squeeze(Offer(w, groups[n].candidate), l)
    ensures |Eligible(groups[..n + 1])| == |Eligible(groups[..n])| + if Ineligible(groups[n]).None? then 1 else 0
  {
    var cs, c := Eligible(groups[..n]), groups[n].candidate;
    assert groups[..n + 1][..n] == groups[..n];
    assert cs + [] == cs;
    assert Eligible(groups[..n + 1]) == cs + if Ineligible(groups[n]).None? then [c] else [];
    if Ineligible(groups[n]).None? {
      EligibleRanks(groups, n);
      StreamFrom(cs, l);
      StreamSnoc(cs, c, l);
    }
  }

  ghost predicate Counted(rejected: multiset<Reason>, groups: seq<Group>) {
    forall r: Reason | Early(r) :: rejected[r] == CountOf(groups, r)
  }

  lemma CountedNext(
    before: multiset<Reason>, after: multiset<Reason>, groups: seq<Group>, n: nat, duplicate: bool)
    requires n < |groups| && Counted(before, groups[..n])
    requires var why := Ineligible(groups[n]);
             if why.Some? then after == before + multiset{why.value}
             else OnlyMore(before, after, if duplicate then Some(DuplicatePrompt) else None)
    ensures Counted(after, groups[..n + 1])
  {
    assert groups[..n + 1][..n] == groups[..n];
  }

  /** A selector that has seen exactly these interactions. */
  ghost predicate Streamed(s: Selector, groups: seq<Group>)
    reads s
  {
    && s.Valid() && s.groups == |groups| && s.eligible == |Eligible(groups)|
    && s.winners == Stream(Eligible(groups), s.limits) && Counted(s.rejected, groups)
  }

  /** One more finished interaction goes through the selector. */
  method StreamNext(s: Selector, g: Group, ghost groups: seq<Group>, ghost n: nat)
    requires DistinctInteractions(groups) && n < |groups| && g == groups[n] && Streamed(s, groups[..n])
    modifies s
    ensures Streamed(s, groups[..n + 1])
  {
    ghost var before, duplicate := s.rejected, g.candidate.key in s.winners;
    NextGroup(groups, n, s.limits);
    s.FinalizeGroup(g);
    CountedNext(before, s.rejected, groups, n, duplicate);
  }

  /** What the selection promises about its outcome: each interaction is accepted or has
      exactly one primary reason, the accepted ones, best first, are winners of the
      stream for different prompts within every budget, and no winner is left out that
      would have fitted. */
  ghost predicate Selects(groups: seq<Group>, l: Limits, accepted: seq<Candidate>, rejected: multiset<Reason>) {
    && |groups| == |accepted| + |rejected| && ExampleLimit !in rejected && Counted(rejected, groups)
    && WithinBudget(accepted, l) && Descending(accepted) && DistinctKeys(accepted)
    && var w := Stream(Eligible(groups), l);
       && (forall c <- accepted :: c.key in w && w[c.key] == c)
       && (forall k <- w :: w[k] in accepted || LeftOutFairly(w[k], accepted, l))
  }

  /** The budgeted pass over the winners a stream of interactions left. */
  method FinalPass(s: Selector, ghost groups: seq<Group>)
    returns (accepted: seq<Candidate>, rejected: multiset<Reason>)
    requires Streamed(s, groups)
    ensures Selects(groups, s.limits, accepted, rejected)
  {
    var sorted := Ranked(s.winners);
    var why;
    accepted, why := Accept(sorted, s.limits);
    PassStaysWithin(sorted, s.limits);
    PassDescends(sorted, s.limits);
    PassIsFair(sorted, s.limits);
    LateReasons(s.rejected, why, groups);
    AcceptedPromptsDiffer(s.winners, accepted);
    rejected := s.rejected + why;
  }

  lemma LateReasons(rejected: multiset<Reason>, why: multiset<Reason>, groups: seq<Group>)
    requires Counted(rejected, groups) && forall r <- why :: !Early(r)
    ensures Counted(rejected + why, groups)
  {
    forall r: Reason | Early(r) ensures (rejected + why)[r] == CountOf(groups, r) {
      assert r !in why;
    }
  }

  /** Accepted examples answer different prompts. */
  lemma AcceptedPromptsDiffer(w: Winners, accepted: seq<Candidate>)
    requires Descending(accepted) && forall c <- accepted :: c.key in w && w[c.key] == c
    ensures DistinctKeys(accepted)
  {
    forall i, j | 0 <= i < j < |accepted| ensures accepted[i].key != accepted[j].key {
      assert accepted[i] in accepted && accepted[j] in accepted;
    }
  }

  // ----- the order of the examples ----------------------------------------------------------

  function InsertByKey(c: Candidate, s: seq<Candidate>): seq<Candidate> {
    if s == [] then [c]
    else if TextBefore(c.key, s[0].key) then [c] + s
    else [s[0]] + InsertByKey(c, s[1..])
  }

  /** `sorted(accepted)`: the examples in the order of their prompts. */
  function ByKey(s: seq<Candidate>): seq<Candidate> {
    if s == [] then [] else InsertByKey(s[0], ByKey(s[1..]))
  }

  ghost predicate KeysAscend(s: seq<Candidate>) {
    forall i, j | 0 <= i < j < |s| :: TextBefore(s[i].key, s[j].key)
  }

  lemma InsertByKeyKeeps(c: Candidate, s: seq<Candidate>)
    ensures multiset(InsertByKey(c, s)) == multiset(s) + multiset{c}
  {
    if s != [] && !TextBefore(c.key, s[0].key) {
      InsertByKeyKeeps(c, s[1..]);
      assert s == [s[0]] + s[1..];
    }
  }

  lemma InsertByKeyAscends(c: Candidate, s: seq<Candidate>)
    requires KeysAscend(s)
    ensures KeysAscend(InsertByKey(c, s))
  {
    if s != [] {
      if TextBefore(c.key, s[0].key) {
        forall i | 0 <= i < |s| ensures TextBefore(c.key, s[i].key) {
          if i > 0 {
            TextTransitive(c.key, s[0].key, s[i].key);
          }
        }
      } else {
        var rest := InsertByKey(c, s[1..]);
        InsertByKeyAscends(c, s[1..]);
        InsertByKeyKeeps(c, s[1..]);
        TextTotal(c.key, s[0].key);
        forall i | 0 <= i < |rest| ensures TextBefore(s[0].key, rest[i].key) {
          assert rest[i] in multiset(rest);
          assert rest[i] == c || rest[i] in s[1..];
        }
      }
    }
  }

  /** The examples are the accepted ones, in ascending order of their prompts. */
  lemma {:induction false} ByKeySorts(s: seq<Candidate>)
    ensures multiset(ByKey(s)) == multiset(s) && KeysAscend(ByKey(s))
  {
    if s != [] {
      ByKeySorts(s[1..]);
      InsertByKeyKeeps(s[0], ByKey(s[1..]));
      InsertByKeyAscends(s[0], ByKey(s[1..]));
      assert s == [s[0]] + s[1..];
    }
  }

  lemma SameFirst(a: seq<Candidate>, b: seq<Candidate>)
    requires multiset(a) == multiset(b) && KeysAscend(a) && KeysAscend(b) && DistinctKeys(a) && a != [] && b != []
    ensures a[0] == b[0]
  {
    assert a[0] in multiset(b) && b[0] in multiset(a);
    var i :| 0 <= i < |b| && b[i] == a[0];
    var j :| 0 <= j < |a| && a[j] == b[0];
    if i > 0 && j > 0 {
      TextAntisymmetric(a[0].key, b[0].key);
    }
  }

  lemma SameRest(a: seq<Candidate>, b: seq<Candidate>)
    requires a != [] && b != [] && a[0] == b[0] && multiset(a) == multiset(b)
    ensures multiset(a[1..]) == multiset(b[1..])
  {
    assert a == [a[0]] + a[1..] && b == [b[0]] + b[1..];
    assert multiset(a[1..]) == multiset(a) - multiset{a[0]};
    assert multiset(b[1..]) == multiset(b) - multiset{b[0]};
  }

  lemma {:induction false} SameOrder(a: seq<Candidate>, b: seq<Candidate>)
    requires multiset(a) == multiset(b) && KeysAscend(a) && KeysAscend(b) && DistinctKeys(a)
    ensures a == b
    decreases |a|
  {
    assert |multiset(a)| == |multiset(b)|;
    if a != [] {
      SameFirst(a, b);
      SameRest(a, b);
      SameOrder(a[1..], b[1..]);
    }
  }

  /** Any prompt order of the accepted examples is the one order there is: the file does
      not depend on the ranks. */
  lemma OrderIsByPrompt(accepted: seq<Candidate>, listed: seq<Candidate>)
    requires DistinctKeys(accepted) && multiset(listed) == multiset(accepted) && KeysAscend(listed)
    ensures listed == ByKey(accepted)
  {
    ByKeySorts(accepted);
    DistinctKeysOf(accepted, ByKey(accepted));
    SameOrder(ByKey(accepted), listed);
  }

  lemma DistinctKeysOf(a: seq<Candidate>, b: seq<Candidate>)
    requires DistinctKeys(a) && multiset(a) == multiset(b)
    ensures DistinctKeys(b)
  {
    forall i, j | 0 <= i < j < |b| ensures b[i].key != b[j].key {
      assert b[i] in multiset(a) && b[j] in multiset(a);
      if b[i].key == b[j].key {
        assert b[i] == b[j];
        assert b == b[..j] + [b[j]] + b[j + 1..];
        assert b[i] in b[..j];
        assert multiset(b)[b[i]] >= 2;
        OnceAmong(a, b[i]);
      }
    }
  }

  lemma OnceAmong(a: seq<Candidate>, c: Candidate)
    requires DistinctKeys(a)
    ensures multiset(a)[c] <= 1
  {
    if a != [] {
      OnceAmong(a[1..], c);
      assert a == [a[0]] + a[1..];
    }
  }
}
