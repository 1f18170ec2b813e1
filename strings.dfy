/** internal/utils/strings.go: the short-code generator. */
module Utils {
  import opened Wrappers
  import opened Random

  /** The 62 symbols a short code is made of. */
  const Charset: string := "abcdefghijklmnopqrstuvwxyzABCDEFGHIJKLMNOPQRSTUVWXYZ0123456789"

  predicate IsAlphanumeric(c: char) {
    'a' <= c <= 'z' || 'A' <= c <= 'Z' || '0' <= c <= '9'
  }

  /** `s` holds consecutive code points starting at `lo`. */
  ghost predicate IsRun(s: string, lo: int) {
    forall j :: 0 <= j < |s| ==> s[j] as int == lo + j
  }

  /** Each block of the charset is a run of consecutive code points. */
  lemma LowerCaseRun()
    ensures IsRun("abcdefghijklmnopqrstuvwxyz", 'a' as int)
  {
  }

  lemma UpperCaseRun()
    ensures IsRun("ABCDEFGHIJKLMNOPQRSTUVWXYZ", 'A' as int)
  {
  }

  lemma DigitRun()
    ensures IsRun("0123456789", '0' as int)
  {
  }

  /** Position `i` of the charset holds the `i`-th letter or digit in the order
      lower-case letters, upper-case letters, digits. */
  function CodeAt(i: int): int {
    if i < 26 then 'a' as int + i
    else if i < 52 then 'A' as int + (i - 26)
    else '0' as int + (i - 52)
  }

  lemma LayoutOfRuns(s: string, lower: string, upper: string, digits: string)
    requires s == lower + upper + digits
    requires |lower| == 26 && |upper| == 26 && |digits| == 10
    requires IsRun(lower, 'a' as int) && IsRun(upper, 'A' as int) && IsRun(digits, '0' as int)
    ensures |s| == 62 && forall i :: 0 <= i < 62 ==> s[i] as int == CodeAt(i)
  {
    forall i | 0 <= i < 62 ensures s[i] as int == CodeAt(i) {
      if i < 26 {
        assert s[i] == lower[i];
      } else if i < 52 {
        assert s[i] == upper[i - 26];
      } else {
        assert s[i] == digits[i - 52];
      }
    }
  }

  lemma CharsetLayout()
    ensures |Charset| == 62
    ensures forall i :: 0 <= i < 62 ==> Charset[i] as int == CodeAt(i)
  {
    var lower, upper, digits := "abcdefghijklmnopqrstuvwxyz", "ABCDEFGHIJKLMNOPQRSTUVWXYZ", "0123456789";
    assert Charset == lower + upper + digits;
    LowerCaseRun();
    UpperCaseRun();
    DigitRun();
    LayoutOfRuns(Charset, lower, upper, digits);
  }

  lemma AlphanumericOfLayout(s: string)
    requires |s| == 62 && forall i :: 0 <= i < 62 ==> s[i] as int == CodeAt(i)
    ensures forall i, j :: 0 <= i < j < |s| ==> s[i] != s[j]
    ensures forall c :: c in s <==> IsAlphanumeric(c)
  {
    forall c | IsAlphanumeric(c) ensures c in s {
      var i := if 'a' <= c <= 'z' then c as int - 'a' as int
               else if 'A' <= c <= 'Z' then 26 + (c as int - 'A' as int)
               else 52 + (c as int - '0' as int);
      assert s[i] as int == c as int;
    }
  }

  /** The charset is exactly the 62 ASCII letters and digits, each once. */
  lemma CharsetIsAlphanumeric()
    ensures |Charset| == 62
    ensures forall i, j :: 0 <= i < j < |Charset| ==> Charset[i] != Charset[j]
    ensures forall c :: c in Charset <==> IsAlphanumeric(c)
  {
    CharsetLayout();
    AlphanumericOfLayout(Charset);
  }

  /** The failures of `GenerateRandomString`. */
  datatype GenError = NonPositiveLength(got: int) | RandomSourceFailed(cause: RandError)

  /** Drawing `n` symbols one after the other, as the loop does: the symbols of
      the first `n` draws and the stream left after them, or the first failure. */
  function Generated(src: seq<Draw>, n: nat): (r: Result<(string, seq<Draw>), RandError>)
    ensures r.Ok? ==> |r.value.0| == n
    ensures r.Ok? ==> forall k :: 0 <= k < n ==> r.value.0[k] in Charset
    decreases n
  {
    if n == 0 then Ok(([], src))
    else match Generated(src, n - 1)
      case Err(e) => Err(e)
      case Ok((prefix, rest)) =>
        var (d, rest') := Int(rest, |Charset|);
        match d
        case Err(e) => Err(e)
        case Ok(idx) => Ok((prefix + [Charset[idx]], rest'))
  }

  /** Once a draw has failed, drawing more symbols fails with the same error:
      no partial result survives a failure. */
  lemma {:induction false} GeneratedFailureSticks(src: seq<Draw>, i: nat, n: nat)
    requires i <= n
    requires Generated(src, i).Err?
    ensures Generated(src, n) == Generated(src, i)
    decreases n - i
  {
    if i < n {
      GeneratedFailureSticks(src, i, n - 1);
    }
  }

  /** A successful run of `n` draws extends every shorter successful run:
      position `k` of the string is fixed by the first `k + 1` draws. */
  lemma {:induction false} GeneratedPrefix(src: seq<Draw>, i: nat, n: nat)
    requires i <= n
    requires Generated(src, n).Ok?
    ensures Generated(src, i).Ok?
    ensures Generated(src, i).value.0 == Generated(src, n).value.0[..i]
    decreases n - i
  {
    if i < n {
      GeneratedPrefix(src, i, n - 1);
      var prev := Generated(src, n - 1);
      assert prev.Ok?;
      assert Generated(src, n).value.0[..n - 1] == prev.value.0;
      assert prev.value.0[..i] == Generated(src, n).value.0[..i];
    }
  }

  /** Every symbol of a generated code is an ASCII letter or digit. */
  lemma GeneratedIsAlphanumeric(src: seq<Draw>, n: nat)
    requires Generated(src, n).Ok?
    ensures forall k :: 0 <= k < n ==> IsAlphanumeric(Generated(src, n).value.0[k])
  {
    CharsetIsAlphanumeric();
  }

  /** When each of the first `n` draws is accepted at once, generation succeeds,
      position `k` holds the charset symbol at the `k`-th drawn index, and
      exactly `n` draws are used. */
  lemma {:induction false} GeneratedFromAcceptedDraws(src: seq<Draw>, n: nat)
    requires n <= |src|
    requires forall k :: 0 <= k < n ==> src[k].Candidate? && src[k].value < |Charset|
    ensures Generated(src, n).Ok?
    ensures Generated(src, n).value.1 == src[n..]
    ensures forall k :: 0 <= k < n ==> Generated(src, n).value.0[k] == Charset[src[k].value]
  {
    if n > 0 {
      GeneratedFromAcceptedDraws(src, n - 1);
      var rest := src[n - 1..];
      assert rest[0] == src[n - 1];
      assert rest[1..] == src[n..];
    }
  }

  /** `GenerateRandomString`: a string of `length` symbols of the charset, one
      random draw per position; a non-positive length or a failed draw gives an
      error and the empty string. `rest` is what is left of the random stream. */
  method GenerateRandomString(length: int, src: seq<Draw>) returns (s: string, err: Option<GenError>, rest: seq<Draw>)
    ensures length <= 0 ==> s == "" && err == Some(NonPositiveLength(length)) && rest == src
    ensures err.None? ==> |s| == length
    ensures err.None? ==> forall k :: 0 <= k < |s| ==> s[k] in Charset
    ensures err.Some? ==> s == ""
    ensures length > 0 ==>
      match Generated(src, length)
      case Ok((code, left)) => err.None? && s == code && rest == left
      case Err(e) => err == Some(RandomSourceFailed(e)) && s == ""
  {
    if length <= 0 {
      return "", Some(NonPositiveLength(length)), src;
    }
    var result := new char[length](_ => '\0');
    rest := src;
    var i := 0;
    while i < length
      invariant 0 <= i <= length
      invariant Generated(src, i) == Ok((result[..i], rest))
      invariant forall k :: i <= k < length ==> result[k] == '\0'
    {
      var (num, left) := Int(rest, |Charset|);
      if num.Err? {
        GeneratedFailureSticks(src, i + 1, length);
        return "", Some(RandomSourceFailed(num.error)), left;
      }
      result[i] := Charset[num.value];
      rest := left;
      i := i + 1;
      assert result[..i] == result[..i - 1] + [Charset[num.value]];
    }
    assert result[..] == result[..length];
    s, err := result[..], None;
  }
}
