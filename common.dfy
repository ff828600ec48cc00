/** Values and sequence operations shared by the route handlers and the client pages:
    the optional value, the outcome of an HTTP handler, and the few `Array.prototype`
    operations (filter, findIndex, index-based filter and map) that the code relies on. */
module Common {

  datatype Option<+T> = None | Some(value: T) {
    /** `x ?? default` */
    function GetOr(default: T): T {
      if Some? then value else default
    }
  }

  /** What a route handler sends back: the JSON body of a 2xx answer, or the error status
      (404, 401, 400) with the `message`/`error` text it carries. */
  datatype Response<+T> =
    | Ok(value: T)
    | NotFound(message: string)
    | Unauthorized(message: string)
    | BadRequest(message: string)

  /** An instant, in milliseconds, as produced by `new Date()`. */
  type Timestamp = nat

  /** The role of an account (`"client" | "professional"`). */
  datatype UserType = Client | Professional

  /** `s.filter(p)`: the elements of `s` satisfying `p`, in their order. */
  function Filter<T(!new)>(s: seq<T>, p: T -> bool): (r: seq<T>)
    ensures |r| <= |s|
    ensures forall x :: multiset(r)[x] == if p(x) then multiset(s)[x] else 0
    ensures forall x :: x in r <==> x in s && p(x)
    decreases |s|
  {
    if s == [] then []
    else
      assert s == [s[0]] + s[1..];
      var rest := Filter(s[1..], p);
      if p(s[0]) then [s[0]] + rest else rest
  }

  /** Filtering distributes over concatenation: the kept elements keep their order. */
  lemma {:induction false} FilterAppend<T(!new)>(a: seq<T>, b: seq<T>, p: T -> bool)
    ensures Filter(a + b, p) == Filter(a, p) + Filter(b, p)
    decreases |a|
  {
    if a == [] {
      assert a + b == b;
    } else {
      assert (a + b)[1..] == a[1..] + b;
      FilterAppend(a[1..], b, p);
    }
  }

  /** A filter that keeps everything is the identity. */
  lemma {:induction false} FilterAll<T(!new)>(s: seq<T>, p: T -> bool)
    requires forall k :: 0 <= k < |s| ==> p(s[k])
    ensures Filter(s, p) == s
    decreases |s|
  {
    if s != [] {
      FilterAll(s[1..], p);
    }
  }

  /** When exactly one position satisfies `p`, the filter keeps exactly one element. */
  lemma {:induction false} FilterSingle<T(!new)>(s: seq<T>, p: T -> bool, j: nat)
    requires j < |s| && p(s[j])
    requires forall k :: 0 <= k < |s| && k != j ==> !p(s[k])
    ensures Filter(s, p) == [s[j]]
    decreases |s|
  {
    if j == 0 {
      assert forall k :: 0 <= k < |s[1..]| ==> !p(s[1..][k]);
      FilterNone(s[1..], p);
    } else {
      FilterSingle(s[1..], p, j - 1);
    }
  }

  /** A filter that keeps nothing gives the empty sequence. */
  lemma {:induction false} FilterNone<T(!new)>(s: seq<T>, p: T -> bool)
    requires forall k :: 0 <= k < |s| ==> !p(s[k])
    ensures Filter(s, p) == []
    decreases |s|
  {
    if s != [] {
      FilterNone(s[1..], p);
    }
  }

  /** Replacing one element by one that `p` keeps only if it kept the old one cannot
      increase the number of kept elements, and leaves it unchanged when `p` judges both
      the same way. */
  lemma {:induction false} FilterLengthUpdate<T(!new)>(s: seq<T>, i: nat, x: T, p: T -> bool)
    requires i < |s| && (p(x) ==> p(s[i]))
    ensures |Filter(s[i := x], p)| <= |Filter(s, p)|
    ensures p(x) == p(s[i]) ==> |Filter(s[i := x], p)| == |Filter(s, p)|
    decreases |s|
  {
    if i == 0 {
      assert s[i := x][1..] == s[1..];
    } else {
      assert s[i := x][1..] == s[1..][i - 1 := x];
      FilterLengthUpdate(s[1..], i - 1, x, p);
    }
  }

  /** `s.findIndex(p)`, with `-1` as `None`: the first position satisfying `p`. */
  function FindIndex<T>(s: seq<T>, p: T -> bool): (r: Option<nat>)
    ensures r.Some? ==> r.value < |s| && p(s[r.value])
    ensures r.Some? ==> forall j :: 0 <= j < r.value ==> !p(s[j])
    ensures r.None? <==> forall j :: 0 <= j < |s| ==> !p(s[j])
    decreases |s|
  {
    if s == [] then None
    else if p(s[0]) then Some(0)
    else
      match FindIndex(s[1..], p)
      case None => None
      case Some(k) => Some(k + 1)
  }

  /** Appending an element that satisfies `p` to a sequence with no such element makes
      that new last position the one found. */
  lemma FindIndexAppend<T>(s: seq<T>, x: T, p: T -> bool)
    requires FindIndex(s, p).None? && p(x)
    ensures FindIndex(s + [x], p) == Some(|s|)
  {
    var t := s + [x];
    assert t[|s|] == x;
    assert forall j :: 0 <= j < |s| ==> t[j] == s[j];
  }

  /** `s.filter((_, i) => i !== index)`: drops the element at `index`, if there is one. */
  function RemoveAt<T>(s: seq<T>, index: int): (r: seq<T>)
    ensures 0 <= index < |s| ==> r == s[..index] + s[index + 1..]
    ensures !(0 <= index < |s|) ==> r == s
    decreases |s|
  {
    if s == [] then []
    else
      assert s == [s[0]] + s[1..];
      var rest := RemoveAt(s[1..], index - 1);
      if index == 0 then rest else [s[0]] + rest
  }

  /** Removing a position removes exactly one occurrence of the element found there. */
  lemma RemoveAtMultiset<T>(s: seq<T>, index: nat)
    requires index < |s|
    ensures multiset(RemoveAt(s, index)) == multiset(s) - multiset{s[index]}
    ensures |RemoveAt(s, index)| == |s| - 1
  {
    var x := s[index];
    var a, b := s[..index], s[index + 1..];
    assert s == a + ([x] + b);
    MultisetSplit(a, x, b);
    assert RemoveAt(s, index) == a + b;
  }

  lemma MultisetSplit<T>(a: seq<T>, x: T, b: seq<T>)
    ensures multiset(a + ([x] + b)) - multiset{x} == multiset(a + b)
  {
    assert multiset(a + ([x] + b)) == multiset(a) + multiset{x} + multiset(b);
  }

  /** `s.map((item, i) => i === index ? value : item)`. */
  function UpdateAt<T>(s: seq<T>, index: int, value: T): (r: seq<T>)
    ensures |r| == |s|
    ensures forall k :: 0 <= k < |s| ==> r[k] == if k == index then value else s[k]
    decreases |s|
  {
    if s == [] then []
    else [if index == 0 then value else s[0]] + UpdateAt(s[1..], index - 1, value)
  }

  /** `pattern` occurs in `s` at position `i`. */
  predicate OccursAt(s: string, pattern: string, i: int) {
    0 <= i && i + |pattern| <= |s| && s[i..i + |pattern|] == pattern
  }

  /** `s.replace(pattern, replacement)` with a string pattern: only the first occurrence
      of `pattern` is replaced (`ReplaceFirstAt`), and without one `s` is returned as it
      is (`ReplaceFirstAbsent`). */
  function ReplaceFirst(s: string, pattern: string, replacement: string): string
    decreases |s|
  {
    if pattern <= s then replacement + s[|pattern|..]
    else if |s| <= |pattern| then s
    else [s[0]] + ReplaceFirst(s[1..], pattern, replacement)
  }

  /** The first occurrence of `pattern`, at `i`, is the one replaced. */
  lemma {:induction false} ReplaceFirstAt(s: string, pattern: string, replacement: string, i: nat)
    requires OccursAt(s, pattern, i)
    requires forall j :: 0 <= j < i ==> !OccursAt(s, pattern, j)
    ensures ReplaceFirst(s, pattern, replacement) == s[..i] + replacement + s[i + |pattern|..]
    decreases i
  {
    if i == 0 {
      assert s[..|pattern|] == pattern;
    } else {
      assert !OccursAt(s, pattern, 0);
      assert s[1..][i - 1..i - 1 + |pattern|] == s[i..i + |pattern|];
      forall j | 0 <= j < i - 1
        ensures !OccursAt(s[1..], pattern, j)
      {
        assert !OccursAt(s, pattern, j + 1);
        assert s[1..][j..j + |pattern|] == s[j + 1..j + 1 + |pattern|];
      }
      ReplaceFirstAt(s[1..], pattern, replacement, i - 1);
      assert [s[0]] + s[1..][..i - 1] == s[..i];
      assert s[1..][i - 1 + |pattern|..] == s[i + |pattern|..];
    }
  }

  /** Without an occurrence of `pattern`, the string is returned unchanged. */
  lemma {:induction false} ReplaceFirstAbsent(s: string, pattern: string, replacement: string)
    requires forall i :: 0 <= i <= |s| - |pattern| ==> !OccursAt(s, pattern, i)
    ensures ReplaceFirst(s, pattern, replacement) == s
    decreases |s|
  {
    if |s| >= |pattern| {
      assert !OccursAt(s, pattern, 0);
      assert s[..|pattern|] == s[0..|pattern|];
    }
    if !(pattern <= s) && |s| > |pattern| {
      forall j | 0 <= j <= |s| - 1 - |pattern|
        ensures !OccursAt(s[1..], pattern, j)
      {
        assert !OccursAt(s, pattern, j + 1);
        assert s[1..][j..j + |pattern|] == s[j + 1..j + 1 + |pattern|];
      }
      ReplaceFirstAbsent(s[1..], pattern, replacement);
      assert [s[0]] + s[1..] == s;
    }
  }

  /** The mock authentication of the request and chat routes:
      `req.headers.authorization?.replace('Bearer ', '') || fallback`. */
  function CallerId(authorization: Option<string>, fallback: string): (r: string)
    ensures authorization.None? ==> r == fallback
    ensures forall id :: authorization == Some("Bearer " + id) && id != "" ==> r == id
    ensures authorization == Some("Bearer ") ==> r == fallback
  {
    if authorization.None? then fallback
    else
      var s := ReplaceFirst(authorization.value, "Bearer ", "");
      if s == "" then fallback else s
  }

  /** A header whose first `Bearer ` is at `i` loses exactly that occurrence, wherever it is. */
  lemma CallerIdStripsFirstBearer(header: string, fallback: string, i: nat)
    requires OccursAt(header, "Bearer ", i)
    requires forall j :: 0 <= j < i ==> !OccursAt(header, "Bearer ", j)
    ensures var rest := header[..i] + header[i + 7..];
      CallerId(Some(header), fallback) == if rest == "" then fallback else rest
  {
    ReplaceFirstAt(header, "Bearer ", "", i);
    assert header[..i] + "" + header[i + 7..] == header[..i] + header[i + 7..];
  }

  /** A header without `Bearer ` (another scheme, such as `Token abc`) is the caller id
      itself, unless it is empty. */
  lemma CallerIdOtherScheme(header: string, fallback: string)
    requires forall i :: 0 <= i <= |header| - 7 ==> !OccursAt(header, "Bearer ", i)
    ensures CallerId(Some(header), fallback) == if header == "" then fallback else header
  {
    ReplaceFirstAbsent(header, "Bearer ", "");
  }
}
