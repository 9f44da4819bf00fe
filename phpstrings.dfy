/**
 * The PHP string behaviour the mailer relies on: the truth value of a string,
 * integers printed into strings, and `str_replace` over the callback URL
 * templates of a campaign (`{mail_id}`, `{sendout_id}`, `{subscriber_id}`, `{email}`).
 */
module PhpStrings {

  /** PHP's truth value of a string: everything but "" and "0". */
  predicate Truthy(s: string) {
    s != "" && s != "0"
  }

  /** Replaces every occurrence of `search`, scanning left to right without overlaps. */
  function ReplaceAll(subject: string, search: string, replace: string): string
    requires |search| > 0
    decreases |subject|
  {
    if |subject| < |search| then subject
    else if subject[..|search|] == search then replace + ReplaceAll(subject[|search|..], search, replace)
    else [subject[0]] + ReplaceAll(subject[1..], search, replace)
  }

  /** `str_replace` with arrays: each pair in turn, over the result of the previous one. */
  function StrReplace(subject: string, pairs: seq<(string, string)>): string
    requires forall i :: 0 <= i < |pairs| ==> |pairs[i].0| > 0
    decreases |pairs|
  {
    if pairs == [] then subject
    else StrReplace(ReplaceAll(subject, pairs[0].0, pairs[0].1), pairs[1..])
  }

  function Digit(d: nat): char
    requires d < 10
  {
    ['0', '1', '2', '3', '4', '5', '6', '7', '8', '9'][d]
  }

  /** An integer as PHP prints it into a string. */
  function DecimalString(n: nat): (s: string)
    ensures |s| >= 1
    ensures forall c :: c in s ==> '0' <= c <= '9'
  {
    if n < 10 then [Digit(n)] else DecimalString(n / 10) + [Digit(n % 10)]
  }

  /** Text before the first `{` passes through a placeholder replacement untouched. */
  lemma {:induction false} ReplaceAfterPlainPrefix(prefix: string, t: string, search: string, replace: string)
    requires |search| > 0 && search[0] == '{' && '{' !in prefix
    ensures ReplaceAll(prefix + t, search, replace) == prefix + ReplaceAll(t, search, replace)
    decreases |prefix|
  {
    if prefix != [] {
      var s := prefix + t;
      if |s| >= |search| {
        assert s[..|search|][0] == prefix[0] != search[0];
        assert s[1..] == prefix[1..] + t;
        ReplaceAfterPlainPrefix(prefix[1..], t, search, replace);
        assert ReplaceAll(s, search, replace) == [s[0]] + ReplaceAll(s[1..], search, replace);
        assert [prefix[0]] + (prefix[1..] + ReplaceAll(t, search, replace)) == prefix + ReplaceAll(t, search, replace);
      } else {
        assert ReplaceAll(t, search, replace) == t;
      }
    } else {
      assert prefix + t == t;
    }
  }

  /** A template without `{` is returned unchanged by every placeholder replacement. */
  lemma NoBraceUnchanged(s: string, pairs: seq<(string, string)>)
    requires forall i :: 0 <= i < |pairs| ==> |pairs[i].0| > 0 && pairs[i].0[0] == '{'
    requires '{' !in s
    ensures StrReplace(s, pairs) == s
    decreases |pairs|
  {
    if pairs != [] {
      ReplaceAfterPlainPrefix(s, [], pairs[0].0, pairs[0].1);
      assert s + [] == s;
      NoBraceUnchanged(s, pairs[1..]);
    }
  }
}
