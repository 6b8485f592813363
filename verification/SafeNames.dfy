/** Allocation of chat tool names (src/conversion/tool_context.rs, `safe_name`). */
module SafeNames {

  const MAX_LENGTH := 64

  predicate IsNameChar(c: char) {
    'a' <= c <= 'z' || 'A' <= c <= 'Z' || '0' <= c <= '9' || c == '_' || c == '-'
  }

  predicate IsName(s: string) {
    s != "" && forall c :: c in s ==> IsNameChar(c)
  }

  function Sanitise(s: string): (r: string)
    ensures |r| == |s| && forall c :: c in r ==> IsNameChar(c)
  {
    if s == "" then "" else [if IsNameChar(s[0]) then s[0] else '_'] + Sanitise(s[1..])
  }

  function Take(s: string, n: nat): (r: string)
    ensures r <= s && |r| == if |s| <= n then |s| else n
  {
    if |s| <= n then s else s[..n]
  }

  function Base(original: string): (base: string)
    ensures IsName(base) && |base| <= MAX_LENGTH
  {
    var base := Take(Sanitise(original), MAX_LENGTH);
    if base == "" then "tool" else base
  }

  // ---------- decimal numerals ----------

  function Digit(n: nat): (c: char)
    requires n < 10
    ensures '0' <= c <= '9'
  {
    '0' + n as char
  }

  function Decimal(n: nat): (s: string)
    ensures s != "" && forall c :: c in s ==> '0' <= c <= '9'
  {
    if n < 10 then [Digit(n)] else Decimal(n / 10) + [Digit(n % 10)]
  }

  lemma {:induction false} DecimalInjective(m: nat, n: nat)
    requires Decimal(m) == Decimal(n)
    ensures m == n
  {
    var s := Decimal(m);
    assert m >= 10 ==> |Decimal(m)| >= 2;
    assert n >= 10 ==> |Decimal(n)| >= 2;
    if m >= 10 && n >= 10 {
      assert s[..|s| - 1] == Decimal(m / 10) == Decimal(n / 10);
      assert s[|s| - 1] == Digit(m % 10) == Digit(n % 10);
      DecimalInjective(m / 10, n / 10);
    }
  }

  function Pow10(k: nat): nat {
    if k == 0 then 1 else 10 * Pow10(k - 1)
  }

  lemma {:induction false} DecimalLength(n: nat, k: nat)
    requires k >= 1 && n < Pow10(k)
    ensures |Decimal(n)| <= k
  {
    assert Pow10(1) == 10 * Pow10(0) == 10;
    if n >= 10 {
      DecimalLength(n / 10, k - 1);
    }
  }

  // ---------- candidates ----------

  function Tail(attempt: nat): string
    requires attempt >= 1
  {
    "_" + Decimal(attempt + 1)
  }

  /** The name tried on the given attempt: the base, then the base cut to make room for _2, _3, ... */
  function Candidate(base: string, attempt: nat): string {
    if attempt == 0 then base
    else
      var tail := Tail(attempt);
      var keep := if |tail| <= MAX_LENGTH then MAX_LENGTH - |tail| else 0;
      Take(base, keep) + tail
  }

  /** What follows the last underscore tells numbered candidates apart. */
  lemma CandidatesDiffer(base: string, i: nat, j: nat)
    requires 1 <= i && 1 <= j && i != j
    ensures Candidate(base, i) != Candidate(base, j)
  {
    var x, y := Candidate(base, i), Candidate(base, j);
    if x == y {
      var a, b := Decimal(i + 1), Decimal(j + 1);
      EndsWithNumeral(base, i);
      EndsWithNumeral(base, j);
      assert |a| == |b|;
      DecimalInjective(i + 1, j + 1);
    }
  }

  lemma EndsWithNumeral(base: string, attempt: nat)
    requires attempt >= 1
    ensures var x, d := Candidate(base, attempt), Decimal(attempt + 1);
            && |d| < |x| && x[|x| - |d| - 1] == '_'
            && x[|x| - |d|..] == d
            && forall k :: |x| - |d| <= k < |x| ==> x[k] != '_'
  {
    var x, d := Candidate(base, attempt), Decimal(attempt + 1);
    var tail := Tail(attempt);
    var head := x[..|x| - |tail|];
    assert x == head + tail && tail[0] == '_' && tail[1..] == d;
    assert x[|head|] == tail[0];
    SuffixOf(head, tail, d);
  }

  lemma SuffixOf(head: string, tail: string, d: string)
    requires tail != "" && tail[1..] == d
    ensures (head + tail)[|head| + 1..] == d
    ensures forall k :: |head| < k < |head| + |tail| ==> (head + tail)[k] in d
  {
    assert forall k :: |head| < k < |head| + |tail| ==> (head + tail)[k] == d[k - |head| - 1];
  }

  ghost predicate AllUsed(used: set<string>, base: string, attempts: nat) {
    forall k: nat :: k < attempts ==> Candidate(base, k) in used
  }

  function Tried(base: string, attempts: nat): (s: set<string>)
  {
    set k: nat | 1 <= k < attempts :: Candidate(base, k)
  }

  lemma {:induction false} TriedSize(base: string, attempts: nat)
    ensures |Tried(base, attempts)| == if attempts == 0 then 0 else attempts - 1
  {
    if attempts >= 2 {
      var n := attempts - 1;
      TriedSize(base, n);
      assert Tried(base, attempts) == Tried(base, n) + {Candidate(base, n)};
      if Candidate(base, n) in Tried(base, n) {
        var k: nat :| 1 <= k < n && Candidate(base, k) == Candidate(base, n);
        CandidatesDiffer(base, k, n);
      }
    } else {
      assert Tried(base, attempts) == {};
    }
  }

  lemma SubsetSize<T>(a: set<T>, b: set<T>)
    requires a <= b
    ensures |a| <= |b|
  {
    assert b == a + (b - a);
  }

  /** At most |used| + 1 attempts can fail. */
  lemma AttemptsBound(used: set<string>, base: string, attempts: nat)
    requires AllUsed(used, base, attempts)
    ensures attempts <= |used| + 1
  {
    TriedSize(base, attempts);
    SubsetSize(Tried(base, attempts), used);
  }

  /** The first attempt that succeeds, when all before `from` failed. */
  function FirstFree(used: set<string>, base: string, from: nat): (k: nat)
    requires AllUsed(used, base, from)
    ensures from <= k && Candidate(base, k) !in used && AllUsed(used, base, k)
    decreases |used| + 1 - from
  {
    AttemptsBound(used, base, from);
    if Candidate(base, from) !in used then from
    else
      AttemptsBound(used, base, from + 1);
      FirstFree(used, base, from + 1)
  }

  function SafeName(used: set<string>, original: string): string {
    var base := Base(original);
    Candidate(base, FirstFree(used, base, 0))
  }

  /** Every allocated name is new and is a legal tool name; its length is bounded as long as the 32-bit suffix counter
      of the source does not overflow. */
  lemma SafeNameIsFreshAndLegal(used: set<string>, original: string)
    ensures SafeName(used, original) !in used
    ensures IsName(SafeName(used, original))
    ensures |used| < 0x7FFF_FFF0 ==> |SafeName(used, original)| <= MAX_LENGTH
  {
    var base := Base(original);
    var k := FirstFree(used, base, 0);
    CandidateIsName(base, k);
    AttemptsBound(used, base, k);
    if |used| < 0x7FFF_FFF0 {
      CandidateLength(base, k);
    }
  }

  /** A name that does not end with a digit is allocated exactly when it is the base and still free. */
  lemma SafeNameIs(used: set<string>, original: string, name: string)
    requires name != "" && !('0' <= name[|name| - 1] <= '9')
    ensures SafeName(used, original) == name <==> Base(original) == name && name !in used
  {
    var base := Base(original);
    var k := FirstFree(used, base, 0);
    if k > 0 {
      EndsWithNumeral(base, k);
      var x, d := Candidate(base, k), Decimal(k + 1);
      assert x[|x| - 1] == x[|x| - |d|..][|d| - 1] == d[|d| - 1] && d[|d| - 1] in d;
    }
  }

  lemma {:induction false} SaneStays(s: string)
    requires forall c :: c in s ==> IsNameChar(c)
    ensures Sanitise(s) == s
  {
    if s != "" {
      SaneStays(s[1..]);
    }
  }

  /** What the allocated name looks like: the original up to 64 characters, with an underscore for every character that
      no name may have, if that is free; otherwise a beginning of it with the first number from 2 on that is free. */
  lemma SafeNameReadsAlike(used: set<string>, original: string)
    ensures exists shown: string ::
              && Shows(shown, original)
              && if shown !in used then SafeName(used, original) == shown
                 else exists k: nat :: IsFirstFree(used, shown, k) && SafeName(used, original) == Numbered(shown, k)
  {
    var base, attempt := Base(original), FirstFree(used, Base(original), 0);
    SanitisedCharacters(original);
    if base in used {
      forall j: nat | 2 <= j <= attempt + 1 ensures Numbered(base, j) == Candidate(base, j - 1) {
      }
      assert IsFirstFree(used, base, attempt + 1);
    }
  }

  /** Nothing at all is shown as "tool". */
  ghost predicate Shows(shown: string, original: string) {
    if original == "" then shown == "tool"
    else
      && |shown| == (if |original| <= 64 then |original| else 64)
      && forall i :: 0 <= i < |shown| ==> shown[i] == if IsNameChar(original[i]) then original[i] else '_'
  }

  /** The beginning of `name` that leaves room for "_k", and "_k". */
  function Numbered(name: string, k: nat): string {
    var tail := "_" + Decimal(k);
    (if |name| <= 64 - |tail| then name else if |tail| <= 64 then name[..64 - |tail|] else "") + tail
  }

  ghost predicate IsFirstFree(used: set<string>, name: string, k: nat) {
    k >= 2 && Numbered(name, k) !in used && forall j: nat :: 2 <= j < k ==> Numbered(name, j) in used
  }

  lemma {:induction false} SanitisedCharacters(s: string)
    ensures forall i :: 0 <= i < |s| ==> Sanitise(s)[i] == if IsNameChar(s[i]) then s[i] else '_'
  {
    if s != "" {
      SanitisedCharacters(s[1..]);
    }
  }

  lemma CandidateIsName(base: string, k: nat)
    requires IsName(base)
    ensures IsName(Candidate(base, k))
  {
    if k >= 1 {
      var tail := Tail(k);
      forall c | c in Candidate(base, k) ensures IsNameChar(c) {
        if c !in base {
          assert c in tail;
        }
      }
    }
  }

  lemma CandidateLength(base: string, k: nat)
    requires |base| <= MAX_LENGTH && k < 0x7FFF_FFFF
    ensures |Candidate(base, k)| <= MAX_LENGTH
  {
    if k >= 1 {
      BillionsHaveTenDigits();
      DecimalLength(k + 1, 10);
    }
  }

  lemma BillionsHaveTenDigits()
    ensures 0x8000_0000 < Pow10(10)
  {
    assert Pow10(5) == 100000;
    assert Pow10(10) == 100000 * Pow10(5);
  }

  // ---------- the number of attempts ----------

  /** A base of full length that already ends like one of its own numbered candidates. */
  ghost predicate EndsLikeCandidate(base: string) {
    |base| == MAX_LENGTH && exists k: nat :: k >= 1 && |Tail(k)| <= |base| && base[|base| - |Tail(k)|..] == Tail(k)
  }

  lemma CandidateIsBase(base: string, k: nat)
    requires k >= 1 && |base| <= MAX_LENGTH
    ensures Candidate(base, k) == base <==>
            |base| == MAX_LENGTH && |Tail(k)| <= |base| && base[|base| - |Tail(k)|..] == Tail(k)
  {
    var tail := Tail(k);
    var c := Candidate(base, k);
    if |base| == MAX_LENGTH && |tail| <= |base| {
      assert base == base[..|base| - |tail|] + base[|base| - |tail|..];
      assert c == base[..|base| - |tail|] + tail;
      assert c[|base| - |tail|..] == tail;
    }
  }

  /** Allocation succeeds within |used| + 1 attempts for every set of used names exactly when the base does not end
      like one of its own candidates; otherwise some set of used names makes it take one attempt more. */
  lemma AttemptsWithinUsedPlusOne(base: string)
    requires |base| <= MAX_LENGTH
    ensures (forall used: set<string> :: FirstFree(used, base, 0) <= |used|) <==> !EndsLikeCandidate(base)
  {
    if EndsLikeCandidate(base) {
      var k: nat :| k >= 1 && |Tail(k)| <= |base| && base[|base| - |Tail(k)|..] == Tail(k);
      CandidateIsBase(base, k);
      var used := Tried(base, k + 1);
      TriedSize(base, k + 1);
      assert forall j: nat :: 1 <= j <= k ==> Candidate(base, j) in used;
      FreeIsLater(used, base, k + 1);
      assert FirstFree(used, base, 0) > |used|;
    } else {
      forall used: set<string> ensures FirstFree(used, base, 0) <= |used| {
        DistinctAttempts(used, base, FirstFree(used, base, 0));
      }
    }
  }

  lemma FreeIsLater(used: set<string>, base: string, attempts: nat)
    requires AllUsed(used, base, attempts)
    ensures attempts <= FirstFree(used, base, 0)
  {
    var k := FirstFree(used, base, 0);
    assert Candidate(base, k) !in used;
  }

  lemma DistinctAttempts(used: set<string>, base: string, attempts: nat)
    requires |base| <= MAX_LENGTH && !EndsLikeCandidate(base) && AllUsed(used, base, attempts)
    ensures attempts <= |used|
  {
    if attempts >= 1 {
      var tried := Tried(base, attempts) + {base};
      TriedSize(base, attempts);
      assert Candidate(base, 0) in used;
      if base in Tried(base, attempts) {
        var k: nat :| 1 <= k < attempts && Candidate(base, k) == base;
        CandidateIsBase(base, k);
      }
      SubsetSize(tried, used);
    }
  }

  /** A full-length name that ends with "_2" is its own first numbered candidate: the second tool of that name takes
      three attempts, with one name in use. */
  lemma ExtraAttempt(name: string)
    requires |name| == MAX_LENGTH && IsName(name) && name[MAX_LENGTH - 2..] == "_2"
    ensures Base(name) == name && SafeName({}, name) == name
    ensures FirstFree({name}, name, 0) == 2 && SafeName({name}, name) == name[..MAX_LENGTH - 2] + "_3"
  {
    SaneStays(name);
    assert Tail(1) == "_2" && Tail(2) == "_3";
    CandidateIsBase(name, 1);
    assert Candidate(name, 2) == name[..MAX_LENGTH - 2] + "_3";
    assert Candidate(name, 2)[MAX_LENGTH - 1] == '3' && name[MAX_LENGTH - 1] == name[MAX_LENGTH - 2..][1] == '2';
  }
}
