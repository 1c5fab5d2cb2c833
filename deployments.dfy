/** The deployment list returned by the Kamiwaza control plane, and the
    filter-then-pick-largest rule both copies of `get_kamiwaza_endpoint` apply to it. */
module Deployments {
  import opened Common

  /** The status string both a deployment and an instance carry when they are running. */
  const Deployed: string := "DEPLOYED"

  const NoDeploymentMessage: string := "No valid running Kamiwaza deployments found"

  datatype Instance = Instance(status: string, hostName: string)

  /** `vramAllocation` is `None` when the control plane reports no value. */
  datatype Deployment = Deployment(
    mName: string,
    status: string,
    vramAllocation: Option<int>,
    lbPort: int,
    instances: seq<Instance>)

  /** An entry of `valid_deployments`: a deployment with the instance chosen for it. */
  datatype Candidate = Candidate(deployment: Deployment, instance: Instance)

  // ---------------------------------------------------------------- filtering

  /** `[i for i in instances if i.status == "DEPLOYED"]`, order kept. */
  function RunningInstances(instances: seq<Instance>): (r: seq<Instance>)
    ensures |r| <= |instances|
    ensures forall x :: x in r <==> x in instances && x.status == Deployed
  {
    if instances == [] then []
    else
      var rest := RunningInstances(instances[1..]);
      if instances[0].status == Deployed then [instances[0]] + rest else rest
  }

  /** Position `k` holds the first running instance of the list. */
  predicate FirstRunningAt(instances: seq<Instance>, k: int)
  {
    0 <= k < |instances| && instances[k].status == Deployed &&
    forall j :: 0 <= j < k ==> instances[j].status != Deployed
  }

  /** `running_instances[0]` is the first instance, in list order, whose status is DEPLOYED. */
  lemma {:induction false} FirstRunningInstance(instances: seq<Instance>)
    requires RunningInstances(instances) != []
    ensures exists k :: FirstRunningAt(instances, k) && RunningInstances(instances)[0] == instances[k]
  {
    if instances[0].status == Deployed {
      assert FirstRunningAt(instances, 0);
    } else {
      var tail := instances[1..];
      FirstRunningInstance(tail);
      var k :| FirstRunningAt(tail, k) && RunningInstances(tail)[0] == tail[k];
      assert FirstRunningAt(instances, k + 1);
    }
  }

  /** A deployment makes it into `valid_deployments`. */
  predicate Eligible(d: Deployment)
  {
    d.status == Deployed && RunningInstances(d.instances) != []
  }

  ghost predicate HasEligible(ds: seq<Deployment>)
  {
    exists i :: 0 <= i < |ds| && Eligible(ds[i])
  }

  /** The pair `(deployment, running_instances[0])` appended for an eligible deployment. */
  function PairOf(d: Deployment): Candidate
    requires Eligible(d)
  {
    Candidate(d, RunningInstances(d.instances)[0])
  }

  /** The `valid_deployments` list the loop builds, as a function of the input list. */
  function ValidCandidates(ds: seq<Deployment>): seq<Candidate>
  {
    if ds == [] then []
    else
      var rest := ValidCandidates(ds[..|ds| - 1]);
      var d := ds[|ds| - 1];
      if Eligible(d) then rest + [PairOf(d)] else rest
  }

  /** The candidates are exactly the eligible deployments, each paired with its first running instance. */
  lemma {:induction false} ValidCandidatesMembers(ds: seq<Deployment>)
    ensures forall c :: c in ValidCandidates(ds) <==>
      exists i :: 0 <= i < |ds| && Eligible(ds[i]) && c == PairOf(ds[i])
  {
    if ds != [] {
      var p := ds[..|ds| - 1];
      ValidCandidatesMembers(p);
      forall c ensures c in ValidCandidates(ds) <==>
        exists i :: 0 <= i < |ds| && Eligible(ds[i]) && c == PairOf(ds[i])
      {
        if c in ValidCandidates(ds) && c !in ValidCandidates(p) {
          assert Eligible(ds[|ds| - 1]) && c == PairOf(ds[|ds| - 1]);
        }
        if c in ValidCandidates(p) {
          var i :| 0 <= i < |p| && Eligible(p[i]) && c == PairOf(p[i]);
          assert ds[i] == p[i];
        }
        if exists i :: 0 <= i < |ds| && Eligible(ds[i]) && c == PairOf(ds[i]) {
          var i :| 0 <= i < |ds| && Eligible(ds[i]) && c == PairOf(ds[i]);
          if i < |p| {
            assert p[i] == ds[i];
          }
        }
      }
    }
  }

  /** `valid_deployments` is empty exactly when no deployment is eligible. */
  lemma {:induction false} ValidCandidatesEmpty(ds: seq<Deployment>)
    ensures ValidCandidates(ds) == [] <==> !HasEligible(ds)
  {
    ValidCandidatesMembers(ds);
    if ValidCandidates(ds) != [] {
      assert ValidCandidates(ds)[0] in ValidCandidates(ds);
    }
    if HasEligible(ds) {
      var i :| 0 <= i < |ds| && Eligible(ds[i]);
      assert PairOf(ds[i]) in ValidCandidates(ds);
    }
  }

  /** The loop of lines 41-46: visit the deployments in order and append each
      eligible one, paired with its first running instance. */
  method CollectValid(deployments: seq<Deployment>) returns (valid: seq<Candidate>)
    ensures valid == ValidCandidates(deployments)
  {
    valid := [];
    for i := 0 to |deployments|
      invariant valid == ValidCandidates(deployments[..i])
    {
      assert deployments[..i + 1][..i] == deployments[..i];
      var deployment := deployments[i];
      if deployment.status == Deployed {
        var running := RunningInstances(deployment.instances);
        if running != [] {
          valid := valid + [Candidate(deployment, running[0])];
        }
      }
    }
    assert deployments[..|deployments|] == deployments;
  }

  // ---------------------------------------------------------------- selection

  /** The sort key `x[0].vram_allocation or 0`. */
  function VramKey(d: Deployment): int
  {
    match d.vramAllocation
    case None => 0
    case Some(v) => v
  }

  function Key(c: Candidate): int
  {
    VramKey(c.deployment)
  }

  /** Inserts `c` into a list sorted by decreasing key, after every element
      whose key is at least `c`'s: elements with equal keys keep their order. */
  function InsertByVram(sorted: seq<Candidate>, c: Candidate): (r: seq<Candidate>)
    ensures |r| == |sorted| + 1
    ensures multiset(r) == multiset(sorted) + multiset{c}
  {
    if sorted == [] || Key(sorted[0]) < Key(c) then [c] + sorted
    else
      assert sorted == [sorted[0]] + sorted[1..];
      [sorted[0]] + InsertByVram(sorted[1..], c)
  }

  /** `sorted(candidates, key=..., reverse=True)`: a stable sort by decreasing
      key, built by inserting the elements in their input order. */
  function SortByVramDesc(s: seq<Candidate>): (r: seq<Candidate>)
    ensures |r| == |s|
    ensures multiset(r) == multiset(s)
  {
    if s == [] then []
    else
      assert s == s[..|s| - 1] + [s[|s| - 1]];
      InsertByVram(SortByVramDesc(s[..|s| - 1]), s[|s| - 1])
  }

  predicate SortedDesc(s: seq<Candidate>)
  {
    forall i, j :: 0 <= i < j < |s| ==> Key(s[i]) >= Key(s[j])
  }

  lemma {:induction false} InsertKeepsSorted(sorted: seq<Candidate>, c: Candidate)
    requires SortedDesc(sorted)
    ensures SortedDesc(InsertByVram(sorted, c))
  {
    if sorted != [] && Key(sorted[0]) >= Key(c) {
      var tail := sorted[1..];
      InsertKeepsSorted(tail, c);
      var r := InsertByVram(sorted, c);
      forall j | 1 <= j < |r| ensures Key(r[0]) >= Key(r[j]) {
        var x := r[j];
        assert x in multiset(InsertByVram(tail, c));
        assert x in multiset(tail) || x == c;
      }
    }
  }

  /** The sort puts the candidates in non-increasing order of vram. */
  lemma {:induction false} SortByVramDescSorted(s: seq<Candidate>)
    ensures SortedDesc(SortByVramDesc(s))
  {
    if s != [] {
      SortByVramDescSorted(s[..|s| - 1]);
      InsertKeepsSorted(SortByVramDesc(s[..|s| - 1]), s[|s| - 1]);
    }
  }

  /** Position `k` holds a largest key, and every earlier position a strictly smaller one. */
  predicate IsFirstMax(cs: seq<Candidate>, k: int)
  {
    0 <= k < |cs| &&
    (forall j :: 0 <= j < |cs| ==> Key(cs[j]) <= Key(cs[k])) &&
    (forall j :: 0 <= j < k ==> Key(cs[j]) < Key(cs[k]))
  }

  /** At most one position is the first maximum. */
  lemma FirstMaxUnique(cs: seq<Candidate>, k1: int, k2: int)
    requires IsFirstMax(cs, k1) && IsFirstMax(cs, k2)
    ensures k1 == k2
  {
    assert Key(cs[k1]) == Key(cs[k2]);
  }

  /** Appending a candidate moves the first maximum to it only when its key is strictly larger. */
  lemma FirstMaxExtend(cs: seq<Candidate>, c: Candidate, k: int)
    requires IsFirstMax(cs, k)
    ensures IsFirstMax(cs + [c], if Key(cs[k]) < Key(c) then |cs| else k)
  {
  }

  /** The head of the stable descending sort is the first candidate with the largest vram. */
  lemma {:induction false} SortHeadIsFirstMax(s: seq<Candidate>)
    requires s != []
    ensures exists k :: IsFirstMax(s, k) && SortByVramDesc(s)[0] == s[k]
  {
    var p, x := s[..|s| - 1], s[|s| - 1];
    assert s == p + [x];
    if p == [] {
      assert IsFirstMax(s, 0);
    } else {
      SortHeadIsFirstMax(p);
      var k0 :| IsFirstMax(p, k0) && SortByVramDesc(p)[0] == p[k0];
      FirstMaxExtend(p, x, k0);
    }
  }

  /** `sorted(valid_deployments, key=..., reverse=True)[0]`. */
  function PickLargest(candidates: seq<Candidate>): (c: Candidate)
    requires candidates != []
    ensures exists k :: IsFirstMax(candidates, k) && c == candidates[k]
  {
    SortHeadIsFirstMax(candidates);
    SortByVramDesc(candidates)[0]
  }

  // ---------------------------------------------------------------- the choice

  /** Deployment `i` is the one the resolver must choose: eligible, with the
      largest vram among eligible deployments, and the earliest such. */
  ghost predicate IsChoice(ds: seq<Deployment>, i: int)
  {
    0 <= i < |ds| && Eligible(ds[i]) &&
    (forall j :: 0 <= j < |ds| && Eligible(ds[j]) ==> VramKey(ds[j]) <= VramKey(ds[i])) &&
    (forall j :: 0 <= j < i && Eligible(ds[j]) ==> VramKey(ds[j]) < VramKey(ds[i]))
  }

  /** The rule determines a single deployment. */
  lemma ChoiceUnique(ds: seq<Deployment>, i1: int, i2: int)
    requires IsChoice(ds, i1) && IsChoice(ds, i2)
    ensures i1 == i2
  {
  }

  /** However the deployments are listed, the chosen one has the same vram:
      the largest among eligible deployments. */
  lemma ChoiceVramOrderIndependent(ds1: seq<Deployment>, ds2: seq<Deployment>, i1: int, i2: int)
    requires multiset(ds1) == multiset(ds2)
    requires IsChoice(ds1, i1) && IsChoice(ds2, i2)
    ensures VramKey(ds1[i1]) == VramKey(ds2[i2])
  {
    assert ds1[i1] in multiset(ds2);
    var j2 :| 0 <= j2 < |ds2| && ds2[j2] == ds1[i1];
    assert ds2[i2] in multiset(ds1);
    var j1 :| 0 <= j1 < |ds1| && ds1[j1] == ds2[i2];
  }

  /** Appending a deployment moves the choice to it only when it is eligible
      and its vram is strictly larger. */
  lemma ChoiceExtend(p: seq<Deployment>, d: Deployment, i0: int)
    requires IsChoice(p, i0)
    ensures IsChoice(p + [d], if Eligible(d) && VramKey(p[i0]) < VramKey(d) then |p| else i0)
  {
  }

  /** The first eligible deployment is the choice until a larger one follows. */
  lemma ChoiceFirst(p: seq<Deployment>, d: Deployment)
    requires !HasEligible(p) && Eligible(d)
    ensures IsChoice(p + [d], |p|)
  {
  }

  /** Picking the largest of the filtered candidates chooses deployment `i` of
      the input with `IsChoice(ds, i)`, paired with its first running instance. */
  lemma {:induction false} ChosenDeployment(ds: seq<Deployment>)
    requires HasEligible(ds)
    ensures ValidCandidates(ds) != []
    ensures exists i :: IsChoice(ds, i) && PickLargest(ValidCandidates(ds)) == PairOf(ds[i])
  {
    ValidCandidatesEmpty(ds);
    var p, d := ds[..|ds| - 1], ds[|ds| - 1];
    assert ds == p + [d];
    var cs := ValidCandidates(p);
    var all := ValidCandidates(ds);
    if !Eligible(d) {
      assert all == cs;
      assert HasEligible(p) by {
        var j :| 0 <= j < |ds| && Eligible(ds[j]);
        assert j < |p| && Eligible(p[j]);
      }
      ChosenDeployment(p);
      var i0 :| IsChoice(p, i0) && PickLargest(cs) == PairOf(p[i0]);
      ChoiceExtend(p, d, i0);
    } else if !HasEligible(p) {
      ValidCandidatesEmpty(p);
      assert all == [PairOf(d)];
      ChoiceFirst(p, d);
    } else {
      assert all == cs + [PairOf(d)];
      ChosenDeployment(p);
      var i0 :| IsChoice(p, i0) && PickLargest(cs) == PairOf(p[i0]);
      var k0 :| IsFirstMax(cs, k0) && PickLargest(cs) == cs[k0];
      FirstMaxExtend(cs, PairOf(d), k0);
      var k :| IsFirstMax(all, k) && PickLargest(all) == all[k];
      FirstMaxUnique(all, k, if Key(cs[k0]) < Key(PairOf(d)) then |cs| else k0);
      ChoiceExtend(p, d, i0);
    }
  }
}
