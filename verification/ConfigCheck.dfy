/** The refusals of a configuration that keep its runs apart: every listed manifest in the profile, and, by counting, no
    digest and no identity listed twice. */
module ConfigCheck {
  import opened GateModel
  import opened Generations

  predicate NoRepeats(s: seq<string>) {
    forall i, j | 0 <= i < j < |s| :: s[i] != s[j]
  }

  /** Every listed manifest digest, run by run. */
  function Listed(runs: map<string, Run>, nonces: seq<string>): seq<string>
    requires forall i | 0 <= i < |nonces| :: nonces[i] in runs
  {
    if nonces == [] then [] else Listed(runs, nonces[..|nonces| - 1]) + runs[nonces[|nonces| - 1]].manifests
  }

  function IdentitiesOf(manifests: map<string, string>, listed: seq<string>): seq<string>
    requires forall i | 0 <= i < |listed| :: listed[i] in manifests
  {
    seq(|listed|, i requires 0 <= i < |listed| => manifests[listed[i]])
  }

  /** The keys of the runs, each once. */
  ghost predicate Enumerates(runs: map<string, Run>, nonces: seq<string>) {
    (forall n :: n in nonces <==> n in runs) && NoRepeats(nonces)
  }

  lemma {:induction false} SizeTells(s: seq<string>)
    ensures |Elements(s)| <= |s|
    ensures |Elements(s)| == |s| <==> NoRepeats(s)
  {
    if s != [] {
      var before, last := s[..|s| - 1], s[|s| - 1];
      SizeTells(before);
      assert Elements(s) == Elements(before) + {last};
      if last in before {
        var i :| 0 <= i < |before| && before[i] == last;
        assert Elements(s) == Elements(before) && s[i] == s[|s| - 1];
      } else if NoRepeats(before) {
        assert forall i | 0 <= i < |before| :: before[i] == s[i] && before[i] in before;
      } else {
        var i, j :| 0 <= i < j < |before| && before[i] == before[j];
        assert s[i] == s[j];
      }
    }
  }

  /** The checks, by set sizes. */
  method CheckRuns(c: Config, nonces: seq<string>) returns (ok: bool)
    requires Enumerates(c.runs, nonces)
    ensures ok <==>
              var listed := Listed(c.runs, nonces);
              && (forall i | 0 <= i < |listed| :: listed[i] in c.manifests)
              && NoRepeats(listed) && NoRepeats(IdentitiesOf(c.manifests, listed))
  {
    assert forall i | 0 <= i < |nonces| :: nonces[i] in nonces;
    var listed := Listed(c.runs, nonces);
    for i := 0 to |listed|
      invariant forall j | 0 <= j < i :: listed[j] in c.manifests
    {
      if listed[i] !in c.manifests { return false; }
    }
    SizeTells(listed);
    var identities := IdentitiesOf(c.manifests, listed);
    SizeTells(identities);
    ok := |Elements(listed)| == |listed| && |Elements(identities)| == |identities|;
  }

  lemma {:induction false} ListedHas(runs: map<string, Run>, nonces: seq<string>, a: nat, d: string)
    requires (forall i | 0 <= i < |nonces| :: nonces[i] in runs) && a < |nonces| && d in runs[nonces[a]].manifests
    ensures d in Listed(runs, nonces)
  {
    if a < |nonces| - 1 { ListedHas(runs, nonces[..|nonces| - 1], a, d); }
  }

  /** A digest in two runs is listed twice. */
  lemma {:induction false} TwiceRepeats(runs: map<string, Run>, nonces: seq<string>, a: nat, b: nat, d: string)
    requires (forall i | 0 <= i < |nonces| :: nonces[i] in runs) && a < b < |nonces|
    requires d in runs[nonces[a]].manifests && d in runs[nonces[b]].manifests
    ensures !NoRepeats(Listed(runs, nonces))
  {
    var before := Listed(runs, nonces[..|nonces| - 1]);
    var own := runs[nonces[|nonces| - 1]].manifests;
    if b < |nonces| - 1 {
      TwiceRepeats(runs, nonces[..|nonces| - 1], a, b, d);
      var i, j :| 0 <= i < j < |before| && before[i] == before[j];
      assert (before + own)[i] == (before + own)[j];
    } else {
      ListedHas(runs, nonces[..|nonces| - 1], a, d);
      var i :| 0 <= i < |before| && before[i] == d;
      var j :| 0 <= j < |own| && own[j] == d;
      assert (before + own)[i] == (before + own)[|before| + j];
    }
  }

  lemma InListed(c: Config, nonces: seq<string>, n: string, d: string)
    requires Enumerates(c.runs, nonces) && (forall i | 0 <= i < |nonces| :: nonces[i] in c.runs)
    requires n in c.runs && d in c.runs[n].manifests
    requires forall i | 0 <= i < |Listed(c.runs, nonces)| :: Listed(c.runs, nonces)[i] in c.manifests
    ensures d in Listed(c.runs, nonces) && d in c.manifests
  {
    assert n in nonces;
    var a: nat :| a < |nonces| && nonces[a] == n;
    ListedHas(c.runs, nonces, a, d);
  }

  lemma OneRun(c: Config, nonces: seq<string>, n: string, m: string, d: string)
    requires Enumerates(c.runs, nonces) && (forall i | 0 <= i < |nonces| :: nonces[i] in c.runs)
    requires NoRepeats(Listed(c.runs, nonces)) && n in c.runs && m in c.runs
    requires d in c.runs[n].manifests && d in c.runs[m].manifests
    ensures n == m
  {
    assert n in nonces && m in nonces;
    var a: nat :| a < |nonces| && nonces[a] == n;
    var b: nat :| b < |nonces| && nonces[b] == m;
    if a < b { TwiceRepeats(c.runs, nonces, a, b, d); }
    if b < a { TwiceRepeats(c.runs, nonces, b, a, d); }
  }

  lemma OneManifest(c: Config, listed: seq<string>, d: string, e: string)
    requires forall i | 0 <= i < |listed| :: listed[i] in c.manifests
    requires NoRepeats(IdentitiesOf(c.manifests, listed)) && d in listed && e in listed
             && c.manifests[d] == c.manifests[e]
    ensures d == e
  {
    var i :| 0 <= i < |listed| && listed[i] == d;
    var j :| 0 <= j < |listed| && listed[j] == e;
    var identities := IdentitiesOf(c.manifests, listed);
    assert identities[i] == identities[j];
  }

  /** What passes the checks keeps its runs apart. */
  lemma CheckedIsValid(c: Config, nonces: seq<string>)
    requires Enumerates(c.runs, nonces) && forall i | 0 <= i < |nonces| :: nonces[i] in c.runs
    requires forall s: seq<string>, x :: x in c.ordered(s) <==> x in s
    requires var listed := Listed(c.runs, nonces);
             && (forall i | 0 <= i < |listed| :: listed[i] in c.manifests)
             && NoRepeats(listed) && NoRepeats(IdentitiesOf(c.manifests, listed))
    ensures ValidConfig(c)
  {
    hide Listed, NoRepeats, Enumerates, IdentitiesOf;
    var listed := Listed(c.runs, nonces);
    forall n, d | n in c.runs && d in c.runs[n].manifests
      ensures d in listed && d in c.manifests
    {
      InListed(c, nonces, n, d);
    }
    forall n, m, d | n in c.runs && m in c.runs && d in c.runs[n].manifests && d in c.runs[m].manifests
      ensures n == m
    {
      OneRun(c, nonces, n, m, d);
    }
    forall n, m, d, e | n in c.runs && m in c.runs && d in c.runs[n].manifests && e in c.runs[m].manifests
                        && c.manifests[d] == c.manifests[e]
      ensures d == e
    {
      InListed(c, nonces, n, d);
      InListed(c, nonces, m, e);
      OneManifest(c, listed, d, e);
    }
  }
}
