/** How the queue finds a free output name (src/queue.rs, with_suffix and resolve_rename). A name is
    the last component of a path; the directory never changes. */
module Rename {
  import opened Ranges

  const MAX_SUFFIX: nat := 10000

  function Digit(d: nat): char
    requires d < 10
  {
    ['0', '1', '2', '3', '4', '5', '6', '7', '8', '9'][d]
  }

  function Decimal(n: nat): (s: string)
    ensures s != []
  {
    if n < 10 then [Digit(n)] else Decimal(n / 10) + [Digit(n % 10)]
  }

  /** The position of the last dot, |name| when there is none. */
  function LastDot(name: string): (i: nat)
    ensures i <= |name|
    ensures i < |name| ==> name[i] == '.'
    ensures i == |name| ==> '.' !in name
    ensures i < |name| ==> '.' !in name[i + 1..]
    decreases |name|
  {
    if name == [] then 0
    else if name[|name| - 1] == '.' then |name| - 1
    else
      var i := LastDot(name[..|name| - 1]);
      if i == |name| - 1 then |name| else i
  }

  /** The part before the suffix and the part after it: the extension moves behind the number, a dot in
      front belongs to the stem, and a dot at the very end is dropped. */
  function Parts(name: string): (string, string) {
    var dot := LastDot(name);
    if dot == |name| || dot == 0 then (name, "")
    else if dot + 1 == |name| then (name[..dot], "")
    else (name[..dot], name[dot..])
  }

  function WithSuffix(name: string, n: nat): string {
    Parts(name).0 + "(" + Decimal(n) + ")" + Parts(name).1
  }

  function Candidate(desired: string, n: nat): string {
    if n == 0 then desired else WithSuffix(desired, n)
  }

  lemma {:induction false} DecimalInjective(m: nat, n: nat)
    requires Decimal(m) == Decimal(n)
    ensures m == n
    decreases m + n
  {
    var a, b := Decimal(m), Decimal(n);
    assert a[|a| - 1] == Digit(m % 10) && b[|b| - 1] == Digit(n % 10);
    if m >= 10 && n >= 10 {
      assert a[..|a| - 1] == Decimal(m / 10) && b[..|b| - 1] == Decimal(n / 10);
      DecimalInjective(m / 10, n / 10);
    }
  }

  /** Different numbers give different names, and none of them is the original. */
  lemma CandidatesDiffer(desired: string, m: nat, n: nat)
    requires Candidate(desired, m) == Candidate(desired, n)
    ensures m == n
  {
    var (stem, tail) := Parts(desired);
    if m > 0 && n > 0 {
      var a, b := WithSuffix(desired, m), WithSuffix(desired, n);
      assert |Decimal(m)| == |Decimal(n)|;
      assert a[|stem| + 1..|stem| + 1 + |Decimal(m)|] == Decimal(m);
      assert b[|stem| + 1..|stem| + 1 + |Decimal(n)|] == Decimal(n);
      DecimalInjective(m, n);
    } else {
      SuffixLengthens(desired, m);
      SuffixLengthens(desired, n);
    }
  }

  lemma SuffixLengthens(name: string, n: nat)
    ensures |WithSuffix(name, n)| > |name|
  {
  }

  // ----- the shape of a candidate

  function Value(s: string): nat {
    if s == [] then 0
    else
      var d := s[|s| - 1];
      10 * Value(s[..|s| - 1]) + if '0' <= d <= '9' then d as nat - '0' as nat else 0
  }

  /** Reading the decimal gives the number back. */
  lemma {:induction false} DecimalReads(n: nat)
    ensures Value(Decimal(n)) == n
    ensures forall c | c in Decimal(n) :: '0' <= c <= '9'
  {
    var s := Decimal(n);
    if n >= 10 {
      DecimalReads(n / 10);
      assert s[..|s| - 1] == Decimal(n / 10);
    } else {
      assert s[..0] == [];
    }
    assert Value(s[..|s| - 1]) == n / 10;
  }

  /** The tail is what follows the last dot of the name, with the dot, unless that dot stands first; a dot
      at the end is left out, and no dot means no tail. */
  ghost predicate StemAndTail(name: string, stem: string, tail: string) {
    if tail != "" then name == stem + tail && stem != "" && |tail| > 1 && tail[0] == '.' && '.' !in tail[1..]
    else name == stem + "." || (name == stem && (stem != "" ==> '.' !in stem[1..]))
  }

  lemma PartsShape(name: string)
    ensures StemAndTail(name, Parts(name).0, Parts(name).1)
  {
    var dot := LastDot(name);
    if 0 < dot < |name| {
      assert name[..dot] + name[dot..] == name;
      assert name[dot..][1..] == name[dot + 1..];
      if dot + 1 == |name| {
        assert name[dot..] == ".";
      }
    }
  }

  /** A candidate is the name with the number in brackets in front of its extension. */
  lemma SuffixShape(name: string, n: nat)
    ensures exists stem, tail ::
      StemAndTail(name, stem, tail) && WithSuffix(name, n) == stem + "(" + Decimal(n) + ")" + tail
  {
    hide StemAndTail, Parts;
    PartsShape(name);
  }

  /** The first number from `n` on whose candidate is free, or the last one tried. */
  function Resolve(desired: string, blocked: set<string>, n: nat): (r: nat)
    requires n <= MAX_SUFFIX
    ensures n <= r <= MAX_SUFFIX
    ensures forall k | n <= k < r :: Candidate(desired, k) in blocked
    ensures Candidate(desired, r) !in blocked || r == MAX_SUFFIX
    decreases MAX_SUFFIX - n
  {
    if Candidate(desired, n) !in blocked || n == MAX_SUFFIX then n else Resolve(desired, blocked, n + 1)
  }

  method ResolveRename(desired: string, blocked: set<string>) returns (candidate: string)
    ensures candidate == Candidate(desired, Resolve(desired, blocked, 0))
  {
    var n := 0;
    candidate := desired;
    while candidate in blocked
      invariant n <= MAX_SUFFIX && candidate == Candidate(desired, n)
      invariant Resolve(desired, blocked, n) == Resolve(desired, blocked, 0)
      decreases MAX_SUFFIX - n
    {
      if n + 1 > MAX_SUFFIX {
        return;
      }
      n := n + 1;
      candidate := WithSuffix(desired, n);
    }
  }

  /** The candidates 0..n-1 are that many different names. */
  lemma {:induction false} DistinctCandidates(desired: string, blocked: set<string>, n: nat)
    requires forall k: nat | k < n :: Candidate(desired, k) in blocked
    ensures n <= |blocked|
    decreases n
  {
    if n > 0 {
      var last := Candidate(desired, n - 1);
      forall k: nat | k < n - 1 ensures Candidate(desired, k) in blocked - {last} {
        if Candidate(desired, k) == last {
          CandidatesDiffer(desired, k, n - 1);
        }
      }
      DistinctCandidates(desired, blocked - {last}, n - 1);
    }
  }

  /** The result is free if and only if one of the MAX_SUFFIX + 1 candidates is; with at most
      MAX_SUFFIX names blocked it is, and it is found within one probe more than names are blocked. */
  lemma RenameFindsFree(desired: string, blocked: set<string>)
    ensures var r := Resolve(desired, blocked, 0);
      && (Candidate(desired, r) !in blocked <==> exists k :: 0 <= k <= MAX_SUFFIX && Candidate(desired, k) !in blocked)
      && r <= |blocked|
      && (|blocked| <= MAX_SUFFIX ==> Candidate(desired, r) !in blocked)
  {
    var r := Resolve(desired, blocked, 0);
    DistinctCandidates(desired, blocked, r);
    if Candidate(desired, r) in blocked {
      DistinctCandidates(desired, blocked, r + 1);
    }
  }

  // ----- enqueueing

  /** The loop around it in enqueue: resolve, then check again under the lock and go round if the name is
      taken. Undisturbed, it succeeds in its first round or in none. */
  method EnqueueRounds(desired: string, blocked: set<string>, rounds: nat) returns (name: Option<string>, used: nat)
    ensures name.Some? <==> rounds > 0 && exists k :: 0 <= k <= MAX_SUFFIX && Candidate(desired, k) !in blocked
    ensures name.Some? ==> name.value !in blocked && used == 1
    ensures name == None ==> used == rounds
  {
    used := 0;
    RenameFindsFree(desired, blocked);
    while used < rounds
      invariant used <= rounds
      invariant used > 0 ==> Candidate(desired, Resolve(desired, blocked, 0)) in blocked
    {
      var candidate := ResolveRename(desired, blocked);
      used := used + 1;
      if candidate !in blocked {
        return Some(candidate), used;
      }
    }
    name := None;
  }
}
