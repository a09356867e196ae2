/** The string helpers of `lib/utils/index.ts`: random nonce strings and
    extracting the request id from a platform error message. */
module Utils {

  /** Consecutive characters starting at `first`. */
  function CharRange(first: char, n: nat): (r: string)
    requires first as int + n <= 0xD800
    ensures |r| == n
    ensures forall i :: 0 <= i < n ==> r[i] as int == first as int + i
  {
    seq(n, i requires 0 <= i < n => (first as int + i) as char)
  }

  /** `a` to `z`, then `A` to `Z`, then `0` to `9`. */
  const ALPHABET: string := CharRange('a', 26) + CharRange('A', 26) + CharRange('0', 10)

  /** The longest nonce the helpers produce. */
  const NONCE_MAX: int := 32

  const DEFAULT_NONCE_LENGTH: int := 16

  predicate IsAlphanumeric(c: char)
  {
    ('a' <= c <= 'z') || ('A' <= c <= 'Z') || ('0' <= c <= '9')
  }

  /** How many characters a request for `length` produces: at most 32, and
      none for a request that is not positive. */
  function NonceLength(length: int): (n: nat)
    ensures n <= NONCE_MAX
    ensures length >= NONCE_MAX ==> n == NONCE_MAX
    ensures 0 <= length <= NONCE_MAX ==> n == length
    ensures length <= 0 ==> n == 0
  {
    if length > NONCE_MAX then NONCE_MAX else if length > 0 then length else 0
  }

  /** `createNonceStr(length = 16)`. The random choice
      `Math.floor(Math.random() * chars.length)` of the i-th round is `picks[i]`,
      an index into the alphabet. */
  method CreateNonceStr(picks: seq<int>, length: int := DEFAULT_NONCE_LENGTH) returns (str: string)
    requires forall i :: 0 <= i < |picks| ==> 0 <= picks[i] < |ALPHABET|
    requires |picks| >= NonceLength(length)
    ensures |str| == NonceLength(length)
    ensures forall i :: 0 <= i < |str| ==> str[i] == ALPHABET[picks[i]]
    ensures forall i :: 0 <= i < |str| ==> IsAlphanumeric(str[i])
  {
    var n := if length > NONCE_MAX then NONCE_MAX else length;
    str := "";
    var i := 0;
    while i < n
      invariant 0 <= i && i <= NonceLength(length)
      invariant |str| == i
      invariant forall j :: 0 <= j < i ==> str[j] == ALPHABET[picks[j]]
      invariant forall j :: 0 <= j < i ==> IsAlphanumeric(str[j])
    {
      str := str + [ALPHABET[picks[i]]];
      i := i + 1;
    }
  }

  /** `pat` occurs in `s` starting at position `i`. */
  predicate OccursAt(s: string, pat: string, i: int)
  {
    0 <= i && i + |pat| <= |s| && s[i..i + |pat|] == pat
  }

  /** The first occurrence of `pat` at or after position `k`, or -1. */
  function IndexFrom(s: string, pat: string, k: nat): (r: int)
    ensures r == -1 || (k <= r && OccursAt(s, pat, r))
    ensures r == -1 ==> forall i :: k <= i ==> !OccursAt(s, pat, i)
    ensures r != -1 ==> forall i :: k <= i < r ==> !OccursAt(s, pat, i)
    decreases |s| - k
  {
    if k + |pat| > |s| then -1
    else if s[k..k + |pat|] == pat then k
    else IndexFrom(s, pat, k + 1)
  }

  /** `s.indexOf(pat)`. */
  function IndexOf(s: string, pat: string): (r: int)
    ensures r == -1 <==> forall i :: !OccursAt(s, pat, i)
    ensures r != -1 ==> OccursAt(s, pat, r) && forall i :: 0 <= i < r ==> !OccursAt(s, pat, i)
  {
    IndexFrom(s, pat, 0)
  }

  const RID_MARK: string := "rid:"

  /** `parseRid(errMsg)`: `errMsg.substring(errMsg.indexOf('rid:') + 5)`. */
  function ParseRid(errMsg: string): (r: string)
    ensures |r| <= |errMsg| && r == errMsg[|errMsg| - |r|..]
  {
    var start := IndexOf(errMsg, RID_MARK) + 5;
    errMsg[if start < |errMsg| then start else |errMsg|..]
  }

  /** Where the mark occurs, the result starts five characters after the
      first occurrence (skipping the mark and the blank after it), or is
      empty when that lies past the end. */
  lemma ParseRidFound(errMsg: string, i: nat)
    requires OccursAt(errMsg, RID_MARK, i)
    requires forall j :: 0 <= j < i ==> !OccursAt(errMsg, RID_MARK, j)
    ensures i + 5 <= |errMsg| ==> ParseRid(errMsg) == errMsg[i + 5..]
    ensures i + 5 > |errMsg| ==> ParseRid(errMsg) == ""
  {
    var r := IndexOf(errMsg, RID_MARK);
    assert r != -1;
    assert !(r < i) && !(i < r);
  }

  /** Without the mark, `indexOf` gives -1 and the first four characters are
      dropped. */
  lemma ParseRidMissing(errMsg: string)
    requires forall j :: !OccursAt(errMsg, RID_MARK, j)
    ensures |errMsg| >= 4 ==> ParseRid(errMsg) == errMsg[4..]
    ensures |errMsg| < 4 ==> ParseRid(errMsg) == ""
  {
  }

  /** A message that ends in `rid: <rid>`, with no earlier mark, yields the rid. */
  lemma ParseRidTrailing(prefix: string, rid: string)
    requires forall j :: !OccursAt(prefix, RID_MARK, j)
    ensures ParseRid(prefix + "rid: " + rid) == rid
  {
    var s := prefix + "rid: " + rid;
    var n := |prefix|;
    assert s[n..n + 4] == RID_MARK;
    forall j | 0 <= j < n ensures !OccursAt(s, RID_MARK, j) {
      // A mark straddling the end of the prefix would need an 'r' where
      // "rid: " has 'i', 'd' or ':'; so an occurrence lies inside the prefix.
      if j + 4 <= n {
        assert !OccursAt(prefix, RID_MARK, j);
        assert prefix[j..j + 4] == s[j..j + 4];
      } else {
        assert s[n] == 'r';
        assert s[j..j + 4][n - j] == 'r';
        assert RID_MARK[n - j] != 'r';
      }
    }
    ParseRidFound(s, n);
    assert s[n + 5..] == rid;
  }
}
