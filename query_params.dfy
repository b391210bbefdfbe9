/** Query parameters: the string-to-string map a request is built from, the decimal
    rendering of the numbers put into it, and the merge that `fetch` performs. */
module QueryParams {

  type Params = map<string, string>

  function DigitChar(d: nat): (c: char)
    requires d < 10
    ensures '0' <= c <= '9'
  {
    ('0' as int + d) as char
  }

  function DigitValue(c: char): nat {
    if '0' <= c <= '9' then c as int - '0' as int else 0
  }

  /** `u32::to_string`: base-ten digits, most significant first, no leading zero. */
  function Decimal(n: nat): (s: string)
    ensures 1 <= |s|
    ensures forall i :: 0 <= i < |s| ==> '0' <= s[i] <= '9'
    ensures 0 < n ==> s[0] != '0'
    decreases n
  {
    if n < 10 then [DigitChar(n)] else Decimal(n / 10) + [DigitChar(n % 10)]
  }

  /** How the remote side reads a decimal parameter back. */
  function ParseDecimal(s: string): nat {
    if s == [] then 0 else 10 * ParseDecimal(s[..|s| - 1]) + DigitValue(s[|s| - 1])
  }

  /** The number sent in a parameter is the number the remote side reads. */
  lemma {:induction false} DecimalRoundTrip(n: nat)
    ensures ParseDecimal(Decimal(n)) == n
  {
    if n >= 10 {
      var s := Decimal(n / 10);
      assert (s + [DigitChar(n % 10)])[..|s|] == s;
      DecimalRoundTrip(n / 10);
    }
  }

  lemma DecimalInjective(m: nat, n: nat)
    requires Decimal(m) == Decimal(n)
    ensures m == n
  {
    DecimalRoundTrip(m);
    DecimalRoundTrip(n);
  }

  /** The parameters `fetch` sends: the handler's base options, then the remote method
      name, then the per-request parameters, each later one overriding an earlier key. */
  function Merge(base: Params, apiMethod: string, params: Params): (r: Params)
    ensures r.Keys == base.Keys + {"method"} + params.Keys
    ensures forall k :: k in params ==> r[k] == params[k]
    ensures "method" !in params ==> r["method"] == apiMethod
    ensures forall k :: k in base && k != "method" && k !in params ==> r[k] == base[k]
  {
    base["method" := apiMethod] + params
  }
}
