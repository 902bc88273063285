/**
 * Human-readable record codes ("EMP007", "PR0012"). The roster and the
 * payroll view each fold over their records for the largest numeric suffix
 * and print the next number zero-padded; both use the rule defined here.
 */
module Codes {
  import opened Wrappers
  import opened Text
  import Seqs

  /**
   * The suffix of one code: `code?.replace(prefix, '') || '0'` read by parseInt.
   * A missing code, or one that is exactly the prefix, reads as 0; None is NaN.
   */
  function SuffixNumber(code: Option<string>, prefix: string): Option<int> {
    var rest := if code.Some? then ReplaceFirst(code.value, prefix, "") else "";
    ParseInt(if rest == "" then "0" else rest)
  }

  /** The parsed suffix of every code, in order. */
  function Suffixes(codes: seq<Option<string>>, prefix: string): seq<Option<int>> {
    Seqs.Map(codes, c => SuffixNumber(c, prefix))
  }

  /**
   * The reduce that starts at 0 and lets a parsed suffix replace the running
   * maximum only when it is larger (NaN and negative numbers never do): the
   * result is at least every parsed suffix and is 0 or one of them.
   */
  function MaxNumber(ns: seq<Option<int>>): (m: nat)
    ensures forall i :: 0 <= i < |ns| && ns[i].Some? ==> ns[i].value <= m
    ensures m == 0 || exists i :: 0 <= i < |ns| && ns[i] == Some(m)
  {
    if ns == [] then 0
    else
      var m := MaxNumber(ns[..|ns| - 1]);
      assert forall i :: 0 <= i < |ns| - 1 ==> ns[..|ns| - 1][i] == ns[i];
      match ns[|ns| - 1]
      case Some(n) => if n > m then n else m
      case None => m
  }

  /** The largest parsed suffix among `codes`, or 0. */
  function MaxSuffix(codes: seq<Option<string>>, prefix: string): nat {
    MaxNumber(Suffixes(codes, prefix))
  }

  /** `${prefix}${String(n).padStart(width, '0')}`: it reads back as `n`. */
  function CodeFor(n: nat, prefix: string, width: nat): (code: string)
    ensures StartsWith(code, prefix) && |code| >= |prefix| + width
    ensures SuffixNumber(Some(code), prefix) == Some(n)
  {
    var digits := PadStart(Decimal(n), width, '0');
    ReplaceLeading(prefix, digits);
    PaddedDecimalParses(n, width);
    assert (prefix + digits)[..|prefix|] == prefix;
    prefix + digits
  }

  /**
   * The code after the largest suffix: reading it back gives that suffix
   * plus one.
   */
  function NextCode(codes: seq<Option<string>>, prefix: string, width: nat): (code: string)
    ensures StartsWith(code, prefix) && |code| >= |prefix| + width
    ensures SuffixNumber(Some(code), prefix) == Some(MaxSuffix(codes, prefix) + 1)
  {
    CodeFor(MaxSuffix(codes, prefix) + 1, prefix, width)
  }

  lemma SuffixAt(codes: seq<Option<string>>, prefix: string, i: nat)
    requires i < |codes|
    ensures Suffixes(codes, prefix)[i] == SuffixNumber(codes[i], prefix)
  {
  }

  /**
   * The generated number is larger than every existing suffix, so the code
   * differs from every existing code.
   */
  lemma NextCodeIsNew(codes: seq<Option<string>>, prefix: string, width: nat)
    ensures forall i :: 0 <= i < |codes| && SuffixNumber(codes[i], prefix).Some? ==>
              SuffixNumber(codes[i], prefix).value < MaxSuffix(codes, prefix) + 1
    ensures forall i :: 0 <= i < |codes| ==> codes[i] != Some(NextCode(codes, prefix, width))
  {
    forall i | 0 <= i < |codes|
      ensures SuffixNumber(codes[i], prefix) == Suffixes(codes, prefix)[i]
    {
      SuffixAt(codes, prefix, i);
    }
  }

  lemma MaxNumberOfLarger(ns: seq<Option<int>>, k: int)
    requires k > MaxNumber(ns)
    ensures MaxNumber(ns + [Some(k)]) == k
  {
    assert (ns + [Some(k)])[..|ns|] == ns;
  }

  lemma SuffixesAppend(codes: seq<Option<string>>, code: Option<string>, prefix: string)
    ensures Suffixes(codes + [code], prefix) == Suffixes(codes, prefix) + [SuffixNumber(code, prefix)]
  {
    Seqs.MapAppend(codes, code, c => SuffixNumber(c, prefix));
  }

  /** Adding a code whose number is one past the largest moves the largest up by one. */
  lemma AppendNextNumber(codes: seq<Option<string>>, code: string, prefix: string)
    requires SuffixNumber(Some(code), prefix) == Some(MaxSuffix(codes, prefix) + 1)
    ensures MaxSuffix(codes + [Some(code)], prefix) == MaxSuffix(codes, prefix) + 1
  {
    SuffixesAppend(codes, Some(code), prefix);
    MaxNumberOfLarger(Suffixes(codes, prefix), MaxSuffix(codes, prefix) + 1);
  }

  /** Adding a record under the generated code moves the next code's number up by exactly one. */
  lemma NextCodeAdvances(codes: seq<Option<string>>, prefix: string, width: nat)
    ensures MaxSuffix(codes + [Some(NextCode(codes, prefix, width))], prefix) == MaxSuffix(codes, prefix) + 1
  {
    AppendNextNumber(codes, NextCode(codes, prefix, width), prefix);
  }
}
