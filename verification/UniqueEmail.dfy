/** Resolving e-mail collisions with numeric suffixes. */
module UniqueEmail {
  import opened Decimals

  /** The index of the first '@', or the index JavaScript's `slice` gives -1: the last character. */
  function SplitAt(s: string): (i: nat)
    ensures i <= |s|
  {
    var at := FirstAt(s, 0);
    if at < |s| then at else if s == "" then 0 else |s| - 1
  }

  function FirstAt(s: string, from: nat): (i: nat)
    requires from <= |s|
    ensures from <= i <= |s|
    decreases |s| - from
  {
    if from == |s| || s[from] == '@' then from else FirstAt(s, from + 1)
  }

  function Candidate(base: string, suffix: nat): string {
    base[..SplitAt(base)] + Decimal(suffix) + base[SplitAt(base)..]
  }

  lemma CandidatesDistinct(base: string, i: nat, j: nat)
    requires i != j
    ensures Candidate(base, i) != Candidate(base, j)
  {
    DecimalRoundTrip(i);
    DecimalRoundTrip(j);
    var at, n := SplitAt(base), |base| - SplitAt(base);
    var ci, cj := Candidate(base, i), Candidate(base, j);
    assert ci[at..|ci| - n] == Decimal(i);
    assert cj[at..|cj| - n] == Decimal(j);
  }

  /** Where the suffix goes: before the first '@', or before the last character of an address without one. */
  predicate Splits(base: string, i: nat) {
    && i <= |base|
    && (if '@' in base then i < |base| && base[i] == '@' && '@' !in base[..i]
        else i == if base == "" then 0 else |base| - 1)
  }

  lemma FirstAtSplits(s: string, from: nat)
    requires from <= |s| && '@' !in s[..from]
    ensures '@' !in s[..FirstAt(s, from)]
    ensures FirstAt(s, from) < |s| ==> s[FirstAt(s, from)] == '@'
    decreases |s| - from
  {
    if from < |s| && s[from] != '@' {
      assert s[..from + 1] == s[..from] + [s[from]];
      FirstAtSplits(s, from + 1);
    }
  }

  /** A candidate is the base with the suffix's decimal digits put in at its one splitting point. */
  lemma CandidateSplits(base: string, suffix: nat)
    ensures Splits(base, SplitAt(base))
    ensures forall i: nat :: Splits(base, i) ==>
      i == SplitAt(base) && Candidate(base, suffix) == base[..i] + Decimal(suffix) + base[i..]
  {
    FirstAtSplits(base, 0);
    assert base[..|base|] == base;
  }

  /** `suffix` is the least from 2 on whose candidate is free. */
  ghost predicate LeastFree(base: string, used: set<string>, at: nat, suffix: nat) {
    && Splits(base, at) && 2 <= suffix && base[..at] + Decimal(suffix) + base[at..] !in used
    && forall i: nat :: 2 <= i < suffix ==> base[..at] + Decimal(i) + base[at..] in used
  }

  /** Pairwise distinct candidates that are all used cannot outnumber the used set. */
  lemma {:induction false} CandidatesFit(base: string, n: nat, used: set<string>)
    requires forall i :: 2 <= i < n + 2 ==> Candidate(base, i) in used
    ensures n <= |used|
  {
    if n > 0 {
      var last := Candidate(base, n + 1);
      forall i | 2 <= i < n + 1 ensures Candidate(base, i) in used - {last} {
        CandidatesDistinct(base, i, n + 1);
      }
      CandidatesFit(base, n - 1, used - {last});
    }
  }

  class UsedEmails {
    var used: set<string>

    constructor ()
      ensures used == {}
    {
      used := {};
    }

    /** Ends for every finite set of used addresses, with an address not used before: the base itself, or
        the candidate with the least free suffix from 2 on. */
    method ToUniqueEmail(base: string) returns (email: string)
      modifies this
      ensures email !in old(used) && used == old(used) + {email}
      ensures base !in old(used) ==> email == base
      ensures base in old(used) ==>
        exists at: nat, suffix: nat :: LeastFree(base, old(used), at, suffix)
          && email == base[..at] + Decimal(suffix) + base[at..]
    {
      if base !in used {
        used := used + {base};
        return base;
      }
      var suffix := 2;
      email := Candidate(base, suffix);
      while email in used
        invariant used == old(used)
        invariant 2 <= suffix <= |used| + 2 && email == Candidate(base, suffix)
        invariant forall i :: 2 <= i < suffix ==> Candidate(base, i) in used
        decreases |used| + 2 - suffix
      {
        suffix := suffix + 1;
        CandidatesFit(base, suffix - 2, used);
        email := Candidate(base, suffix);
      }
      CandidateSplits(base, suffix);
      ghost var at := SplitAt(base);
      forall i: nat | 2 <= i < suffix ensures base[..at] + Decimal(i) + base[at..] in used {
        assert Candidate(base, i) in used;
      }
      assert LeastFree(base, used, at, suffix);
      used := used + {email};
    }
  }

  /** The e-mail threading of the employee generator: whatever base addresses come up, all results differ. */
  method GenerateEmails(bases: seq<string>) returns (emails: seq<string>)
    ensures |emails| == |bases|
    ensures forall i, j :: 0 <= i < j < |emails| ==> emails[i] != emails[j]
    ensures forall i :: 0 <= i < |bases| && (forall j :: 0 <= j < i ==> emails[j] != bases[i]) ==> emails[i] == bases[i]
  {
    var issued := new UsedEmails();
    emails := [];
    for k := 0 to |bases|
      invariant |emails| == k && fresh(issued)
      invariant forall e :: e in issued.used <==> e in emails
      invariant forall i, j :: 0 <= i < j < k ==> emails[i] != emails[j]
      invariant forall i :: 0 <= i < k && (forall j :: 0 <= j < i ==> emails[j] != bases[i]) ==> emails[i] == bases[i]
    {
      var email := issued.ToUniqueEmail(bases[k]);
      assert forall i :: 0 <= i < k ==> emails[i] in emails;
      emails := emails + [email];
    }
  }
}
