/** VLAN tags given to the services of every UNI while the OLT is created. */
module VlanTags {

  const MAX_TAG := 4096
  const MAX_UNI_PORTS := 4

  /** The tag part of a configured service. */
  datatype Service = Service(name: string, cTag: int, cTagAllocation: string, sTag: int, sTagAllocation: string)

  datatype Tags = Tags(cTag: int, sTag: int)

  /** How one kind of tag of a service is allocated. */
  datatype Rule = Rule(name: string, base: int, unique: bool)

  function CRule(s: Service): Rule {
    Rule(s.name, s.cTag, s.cTagAllocation == "unique")
  }

  function SRule(s: Service): Rule {
    Rule(s.name, s.sTag, s.sTagAllocation == "unique")
  }

  function CRules(ss: seq<Service>): (rs: seq<Rule>)
    ensures |rs| == |ss|
  {
    seq(|ss|, i requires 0 <= i < |ss| => CRule(ss[i]))
  }

  function SRules(ss: seq<Service>): (rs: seq<Rule>)
    ensures |rs| == |ss|
  {
    seq(|ss|, i requires 0 <= i < |ss| => SRule(ss[i]))
  }

  // ---------------------------------------------------------------------------
  // The closed form

  /** Index of the first rule with the name, or the number of rules. */
  function First(rs: seq<Rule>, name: string): (f: nat)
    ensures f <= |rs| && (f < |rs| ==> rs[f].name == name)
    ensures forall k | 0 <= k < f :: rs[k].name != name
  {
    if rs == [] || rs[0].name == name then 0 else 1 + First(rs[1..], name)
  }

  function Uniques(rs: seq<Rule>, name: string): nat {
    if rs == [] then 0
    else
      Uniques(rs[..|rs| - 1], name) +
      (if rs[|rs| - 1].unique && rs[|rs| - 1].name == name then 1 else 0)
  }

  function Times(n: nat, t: nat): nat {
    if n == 0 then 0 else Times(n - 1, t) + t
  }

  /**
    The last tag given out under a name after n whole UNIs and k services of the next one:
    the first one is the configured base, every later "unique" one adds 1.
   */
  function Value(rs: seq<Rule>, name: string, n: nat, k: nat): int
    requires k <= |rs| && First(rs, name) < |rs|
  {
    var first := rs[First(rs, name)];
    first.base + Times(n, Uniques(rs, name)) + Uniques(rs[..k], name) - (if first.unique then 1 else 0)
  }

  /** The tag of rule k at the n-th UNI of the OLT. */
  function TagAt(rs: seq<Rule>, n: nat, k: nat): int
    requires k < |rs|
  {
    Value(rs, rs[k].name, n, k + 1)
  }

  function TagsAt(ss: seq<Service>, n: nat, k: nat): Tags
    requires k < |ss|
  {
    Tags(TagAt(CRules(ss), n, k), TagAt(SRules(ss), n, k))
  }

  /** Only an incremented tag is compared with the maximum, never a configured base. */
  predicate Exceeds(rs: seq<Rule>, n: nat, k: nat)
    requires k < |rs|
  {
    rs[k].unique && (n > 0 || First(rs, rs[k].name) < k) && TagAt(rs, n, k) > MAX_TAG
  }

  predicate ServiceFits(ss: seq<Service>, n: nat, k: nat)
    requires k < |ss|
  {
    !Exceeds(CRules(ss), n, k) && !Exceeds(SRules(ss), n, k)
  }

  predicate UniFits(ss: seq<Service>, n: nat) {
    forall k: nat | k < |ss| :: ServiceFits(ss, n, k)
  }

  predicate CountedFor(next: map<string, int>, rs: seq<Rule>, n: nat, k: nat, name: string)
    requires k <= |rs|
  {
    && (name in next <==> First(rs, name) < if n > 0 then |rs| else k)
    && (name in next ==> next[name] == Value(rs, name, n, k))
  }

  ghost predicate Counted(next: map<string, int>, rs: seq<Rule>, n: nat, k: nat)
    requires k <= |rs|
  {
    forall name: string :: CountedFor(next, rs, n, k, name)
  }

  /** The tag the code computes for a rule. */
  function Bump(next: map<string, int>, r: Rule): int {
    if r.name !in next then r.base
    else if r.unique then next[r.name] + 1
    else next[r.name]
  }

  lemma UniquesNext(rs: seq<Rule>, name: string, k: nat)
    requires k < |rs|
    ensures Uniques(rs[..k + 1], name) ==
              Uniques(rs[..k], name) + if rs[k].unique && rs[k].name == name then 1 else 0
  {
    assert rs[..k + 1][..k] == rs[..k];
  }

  lemma {:induction false} UniquesBeforeFirst(rs: seq<Rule>, name: string, k: nat)
    requires k <= First(rs, name)
    ensures Uniques(rs[..k], name) == 0
  {
    if k > 0 {
      UniquesBeforeFirst(rs, name, k - 1);
      UniquesNext(rs, name, k - 1);
    }
  }

  lemma BumpIsTag(next: map<string, int>, rs: seq<Rule>, n: nat, k: nat)
    requires k < |rs| && CountedFor(next, rs, n, k, rs[k].name)
    ensures Bump(next, rs[k]) == TagAt(rs, n, k)
    ensures rs[k].name in next <==> n > 0 || First(rs, rs[k].name) < k
  {
    hide Uniques;
    hide First;
    var name := rs[k].name;
    FirstBefore(rs, k);
    UniquesNext(rs, name, k);
    if name !in next {
      UniquesBeforeFirst(rs, name, k);
    }
  }

  lemma FirstBefore(rs: seq<Rule>, k: nat)
    requires k < |rs|
    ensures First(rs, rs[k].name) <= k
  {
  }

  lemma BumpKeepsOther(next: map<string, int>, rs: seq<Rule>, n: nat, k: nat, name: string, tag: int)
    requires k < |rs| && CountedFor(next, rs, n, k, name) && name != rs[k].name
    ensures CountedFor(next[rs[k].name := tag], rs, n, k + 1, name)
  {
    UniquesNext(rs, name, k);
  }

  lemma BumpKeepsCounted(next: map<string, int>, rs: seq<Rule>, n: nat, k: nat)
    requires k < |rs| && Counted(next, rs, n, k)
    ensures Bump(next, rs[k]) == TagAt(rs, n, k)
    ensures Counted(next[rs[k].name := Bump(next, rs[k])], rs, n, k + 1)
    ensures rs[k].name in next <==> n > 0 || First(rs, rs[k].name) < k
  {
    BumpIsTag(next, rs, n, k);
    var tag := Bump(next, rs[k]);
    var next', k' := next[rs[k].name := tag], k + 1;
    forall name: string
      ensures CountedFor(next', rs, n, k', name)
    {
      if name == rs[k].name {
        FirstBefore(rs, k);
      } else {
        BumpKeepsOther(next, rs, n, k, name, tag);
      }
    }
  }

  lemma NextUni(next: map<string, int>, rs: seq<Rule>, n: nat)
    requires Counted(next, rs, n, |rs|)
    ensures Counted(next, rs, n + 1, 0)
  {
    assert rs[..|rs|] == rs;
    var n' := n + 1;
    forall name: string
      ensures CountedFor(next, rs, n', 0, name)
    {
      assert CountedFor(next, rs, n, |rs|, name);
    }
  }

  // ---------------------------------------------------------------------------
  // The creation loops

  /** One tag of a service: the first is the configured value, a later "unique" one is incremented and checked. */
  method NextTag(next: map<string, int>, r: Rule, ghost rs: seq<Rule>, ghost n: nat, ghost k: nat)
    returns (ok: bool, next': map<string, int>)
    requires k < |rs| && r == rs[k] && Counted(next, rs, n, k)
    ensures ok <==> !Exceeds(rs, n, k)
    ensures ok ==> Counted(next', rs, n, k + 1) && r.name in next' && next'[r.name] == TagAt(rs, n, k)
  {
    BumpKeepsCounted(next, rs, n, k);
    next' := next;
    if r.name !in next {
      next' := next[r.name := r.base];
    } else if r.unique {
      next' := next[r.name := next[r.name] + 1];
      if next'[r.name] > MAX_TAG {
        return false, next';
      }
    }
    assert next' == next[r.name := Bump(next, r)];
    ok := true;
  }

  class Allocator {
    var nextCtag: map<string, int>
    var nextStag: map<string, int>

    constructor ()
      ensures nextCtag == map[] && nextStag == map[]
    {
      nextCtag, nextStag := map[], map[];
    }

    ghost predicate At(ss: seq<Service>, n: nat, k: nat)
      requires k <= |ss|
      reads this
    {
      Counted(nextCtag, CRules(ss), n, k) && Counted(nextStag, SRules(ss), n, k)
    }

    /** The two tag steps of one round of the loop over the services. */
    method NextTags(s: Service, ghost ss: seq<Service>, ghost n: nat, ghost k: nat) returns (ok: bool, tags: Tags)
      requires k < |ss| && s == ss[k] && At(ss, n, k)
      modifies this
      ensures ok <==> ServiceFits(ss, n, k)
      ensures ok ==> At(ss, n, k + 1) && tags == TagsAt(ss, n, k)
    {
      tags := Tags(0, 0);
      ok, nextCtag := NextTag(nextCtag, CRule(s), CRules(ss), n, k);
      if ok {
        ok, nextStag := NextTag(nextStag, SRule(s), SRules(ss), n, k);
        if ok {
          tags := Tags(nextCtag[s.name], nextStag[s.name]);
        }
      }
    }

    /** NewUniPort. */
    method NewUni(id: nat, ss: seq<Service>, ghost n: nat) returns (ok: bool, tags: seq<Tags>)
      requires At(ss, n, 0)
      modifies this
      ensures ok <==> id < MAX_UNI_PORTS && UniFits(ss, n)
      ensures ok ==> At(ss, n + 1, 0) && UniTags(tags, ss, n, |ss|)
    {
      hide Exceeds;
      hide TagsAt;
      hide Counted;
      tags := [];
      if id > MAX_UNI_PORTS - 1 {
        return false, [];
      }
      for k := 0 to |ss|
        invariant At(ss, n, k) && UniTags(tags, ss, n, k)
        invariant forall q: nat | q < k :: ServiceFits(ss, n, q)
      {
        var good, t := NextTags(ss[k], ss, n, k);
        if !good {
          return false, tags;
        }
        tags := tags + [t];
      }
      NextUni(nextCtag, CRules(ss), n);
      NextUni(nextStag, SRules(ss), n);
      ok := true;
    }

    /** The loop over the UNIs in CreateONU. */
    method NewOnu(unis: nat, ss: seq<Service>, ghost n: nat) returns (ok: bool, tags: seq<seq<Tags>>)
      requires At(ss, n, 0)
      modifies this
      ensures ok <==> OnuFits(ss, n, unis)
      ensures ok ==> At(ss, n + unis, 0) && OnuTags(tags, ss, n, unis)
    {
      hide UniFits;
      hide UniTags;
      hide Counted;
      tags := [];
      for u := 0 to unis
        invariant At(ss, n + u, 0) && OnuFits(ss, n, u) && OnuTags(tags, ss, n, u)
      {
        var good, t := NewUni(u, ss, n + u);
        if !good {
          assert !UniCreated(ss, n, u);
          return false, tags;
        }
        tags := tags + [t];
      }
      ok := true;
    }

    /** The loop over the ONUs of a PON in CreateOLT. */
    method NewPon(onus: nat, unis: nat, ss: seq<Service>, ghost i: nat) returns (ok: bool, tags: seq<seq<seq<Tags>>>)
      requires At(ss, Start(i, 0, onus, unis), 0)
      modifies this
      ensures ok <==> PonFits(ss, i, onus, unis, onus)
      ensures ok ==> At(ss, Start(i, onus, onus, unis), 0) && PonTags(tags, ss, i, onus, unis, onus)
    {
      hide OnuFits;
      hide OnuTags;
      hide Counted;
      hide Start;
      tags := [];
      for j := 0 to onus
        invariant At(ss, Start(i, j, onus, unis), 0)
        invariant PonFits(ss, i, onus, unis, j) && PonTags(tags, ss, i, onus, unis, j)
      {
        var good, t := NewOnu(unis, ss, Start(i, j, onus, unis));
        if !good {
          return false, tags;
        }
        StartNext(i, j, onus, unis);
        tags := tags + [t];
      }
      ok := true;
    }
  }

  /** Number of UNIs created before the first UNI of an ONU. */
  function Start(i: nat, j: nat, onus: nat, unis: nat): nat {
    (i * onus + j) * unis
  }

  lemma StartNext(i: nat, j: nat, onus: nat, unis: nat)
    ensures Start(i, j + 1, onus, unis) == Start(i, j, onus, unis) + unis
    ensures Start(i + 1, 0, onus, unis) == Start(i, onus, onus, unis)
  {
    assert (i + 1) * onus == i * onus + onus;
  }

  predicate UniCreated(ss: seq<Service>, n: nat, u: nat) {
    u < MAX_UNI_PORTS && UniFits(ss, n + u)
  }

  predicate OnuFits(ss: seq<Service>, n: nat, unis: nat) {
    forall u: nat | u < unis :: UniCreated(ss, n, u)
  }

  predicate PonFits(ss: seq<Service>, i: nat, onus: nat, unis: nat, upTo: nat) {
    forall j: nat | j < upTo :: OnuFits(ss, Start(i, j, onus, unis), unis)
  }

  predicate AllFit(ss: seq<Service>, pons: nat, onus: nat, unis: nat) {
    forall i: nat | i < pons :: PonFits(ss, i, onus, unis, onus)
  }

  predicate UniTags(tags: seq<Tags>, ss: seq<Service>, n: nat, upTo: nat)
    requires upTo <= |ss|
  {
    |tags| == upTo && forall k: nat | k < upTo :: tags[k] == TagsAt(ss, n, k)
  }

  predicate OnuTags(tags: seq<seq<Tags>>, ss: seq<Service>, n: nat, unis: nat) {
    |tags| == unis && forall u: nat | u < unis :: UniTags(tags[u], ss, n + u, |ss|)
  }

  predicate PonTags(tags: seq<seq<seq<Tags>>>, ss: seq<Service>, i: nat, onus: nat, unis: nat, upTo: nat) {
    |tags| == upTo && forall j: nat | j < upTo :: OnuTags(tags[j], ss, Start(i, j, onus, unis), unis)
  }

  predicate OltTags(tags: seq<seq<seq<seq<Tags>>>>, ss: seq<Service>, pons: nat, onus: nat, unis: nat) {
    |tags| == pons && forall i: nat | i < pons :: PonTags(tags[i], ss, i, onus, unis, onus)
  }

  /**
    The loops of CreateOLT: tags[i][j][u][k] is the pair given to service k of UNI u of ONU j of
    PON i.  Services may share a name.
   */
  method CreateTags(pons: nat, onus: nat, unis: nat, ss: seq<Service>)
    returns (ok: bool, tags: seq<seq<seq<seq<Tags>>>>)
    ensures ok <==> AllFit(ss, pons, onus, unis)
    ensures ok ==> OltTags(tags, ss, pons, onus, unis)
  {
    var next := new Allocator();
    tags := [];
    for i := 0 to pons
      invariant next.At(ss, Start(i, 0, onus, unis), 0) && AllFit(ss, i, onus, unis) && OltTags(tags, ss, i, onus, unis)
    {
      var good, t := next.NewPon(onus, unis, ss, i);
      if !good {
        return false, tags;
      }
      StartNext(i, 0, onus, unis);
      tags := tags + [t];
    }
    ok := true;
  }

  // ---------------------------------------------------------------------------
  // What the closed form means

  predicate DistinctNames(rs: seq<Rule>) {
    forall a, b | 0 <= a < b < |rs| :: rs[a].name != rs[b].name
  }

  lemma {:induction false} UniquesDistinct(rs: seq<Rule>, k: nat, upTo: nat)
    requires DistinctNames(rs) && k < |rs| && upTo <= |rs|
    ensures Uniques(rs[..upTo], rs[k].name) == if rs[k].unique && k < upTo then 1 else 0
  {
    if upTo > 0 {
      UniquesDistinct(rs, k, upTo - 1);
      UniquesNext(rs, rs[k].name, upTo - 1);
    }
  }

  /** With distinct service names a unique tag is the base plus the number of the UNI, a shared one the base. */
  lemma TagClosedForm(rs: seq<Rule>, n: nat, k: nat)
    requires DistinctNames(rs) && k < |rs|
    ensures TagAt(rs, n, k) == rs[k].base + if rs[k].unique then n else 0
  {
    UniquesDistinct(rs, k, k + 1);
    UniquesDistinct(rs, k, |rs|);
    assert rs[..|rs|] == rs;
    TimesOne(n);
    assert First(rs, rs[k].name) == k;
  }

  /**
    With distinct names, service k of UNI u of ONU j of PON i gets its configured tags, plus the
    number of the UNI in the order of creation where the allocation is unique.
   */
  lemma CreatedTags(
      tags: seq<seq<seq<seq<Tags>>>>, ss: seq<Service>, pons: nat, onus: nat, unis: nat, i: nat, j: nat, u: nat, k: nat)
    requires OltTags(tags, ss, pons, onus, unis) && i < pons && j < onus && u < unis && k < |ss|
    requires forall a, b | 0 <= a < b < |ss| :: ss[a].name != ss[b].name
    ensures |tags| == pons && |tags[i]| == onus && |tags[i][j]| == unis && |tags[i][j][u]| == |ss|
    ensures var n := (i * onus + j) * unis + u;
            var t := tags[i][j][u][k];
            && t.cTag == ss[k].cTag + (if ss[k].cTagAllocation == "unique" then n else 0)
            && t.sTag == ss[k].sTag + (if ss[k].sTagAllocation == "unique" then n else 0)
  {
    assert PonTags(tags[i], ss, i, onus, unis, onus);
    assert OnuTags(tags[i][j], ss, Start(i, j, onus, unis), unis);
    var n := Start(i, j, onus, unis) + u;
    assert UniTags(tags[i][j][u], ss, n, |ss|);
    assert DistinctNames(CRules(ss)) && DistinctNames(SRules(ss));
    TagClosedForm(CRules(ss), n, k);
    TagClosedForm(SRules(ss), n, k);
  }

  lemma {:induction false} UniquesCounts(rs: seq<Rule>, k: nat, upTo: nat)
    requires k < upTo <= |rs| && rs[k].unique
    ensures Uniques(rs[..upTo], rs[k].name) >= 1
  {
    UniquesNext(rs, rs[k].name, upTo - 1);
    if k < upTo - 1 {
      UniquesCounts(rs, k, upTo - 1);
    }
  }

  /** A unique tag of a service differs between any two UNIs of the OLT, even where services share a name. */
  lemma UniqueTagsDiffer(rs: seq<Rule>, k: nat, onus: nat, unis: nat,
                         i: nat, j: nat, u: nat, i': nat, j': nat, u': nat)
    requires k < |rs| && rs[k].unique
    requires j < onus && j' < onus && u < unis && u' < unis
    requires (i, j, u) != (i', j', u')
    ensures TagAt(rs, Start(i, j, onus, unis) + u, k) != TagAt(rs, Start(i', j', onus, unis) + u', k)
  {
    UniquesCounts(rs, k, |rs|);
    assert rs[..|rs|] == rs;
    IndexInjective(onus, unis, i, j, u, i', j', u');
    var n, n', t := Start(i, j, onus, unis) + u, Start(i', j', onus, unis) + u', Uniques(rs, rs[k].name);
    if n < n' {
      TimesGrows(n, n', t);
    } else {
      TimesGrows(n', n, t);
    }
  }

  lemma {:induction false} TimesOne(n: nat)
    ensures Times(n, 0) == 0 && Times(n, 1) == n
  {
    if n > 0 {
      TimesOne(n - 1);
    }
  }

  lemma {:induction false} TimesGrows(n: nat, n': nat, t: nat)
    requires n < n' && t > 0
    ensures Times(n, t) < Times(n', t)
  {
    if n < n' - 1 {
      TimesGrows(n, n' - 1, t);
    }
  }

  lemma MulStep(a: nat, c: nat, m: nat)
    requires a < c
    ensures a * m + m <= c * m
  {
    var d := c - a - 1;
    assert 0 <= d * m;
    assert c * m == (a + 1 + d) * m == a * m + m + d * m;
  }

  lemma Mixed(a: nat, b: nat, m: nat, c: nat, d: nat)
    requires b < m && d < m && a * m + b == c * m + d
    ensures a == c && b == d
  {
    if a < c {
      MulStep(a, c, m);
    } else if c < a {
      MulStep(c, a, m);
    }
  }

  lemma IndexInjective(onus: nat, unis: nat, i: nat, j: nat, u: nat, i': nat, j': nat, u': nat)
    requires j < onus && j' < onus && u < unis && u' < unis
    requires (i, j, u) != (i', j', u')
    ensures Start(i, j, onus, unis) + u != Start(i', j', onus, unis) + u'
  {
    if Start(i, j, onus, unis) + u == Start(i', j', onus, unis) + u' {
      Mixed(i * onus + j, u, unis, i' * onus + j', u');
      Mixed(i, j, onus, i', j');
    }
  }

  predicate Within(s: Service, n: nat) {
    n > 0 ==>
      && (s.cTagAllocation == "unique" ==> s.cTag + n <= MAX_TAG)
      && (s.sTagAllocation == "unique" ==> s.sTag + n <= MAX_TAG)
  }

  /** With distinct names, creating UNI n stays within the maximum exactly when each unique base plus n does. */
  lemma UniFitsIff(ss: seq<Service>, n: nat)
    requires DistinctNames(CRules(ss))
    ensures UniFits(ss, n) <==>
              forall k: nat | k < |ss| :: Within(ss[k], n)
  {
    assert DistinctNames(SRules(ss)) by {
      forall a, b | 0 <= a < b < |ss|
        ensures SRules(ss)[a].name != SRules(ss)[b].name
      {
        assert CRules(ss)[a].name != CRules(ss)[b].name;
      }
    }
    forall k: nat | k < |ss|
      ensures ServiceFits(ss, n, k) <==> Within(ss[k], n)
    {
      TagClosedForm(CRules(ss), n, k);
      TagClosedForm(SRules(ss), n, k);
    }
  }

  /**
    With distinct names and at least one UNI, the whole OLT is created exactly when an ONU has
    at most four UNIs and the last UNI fits: a single UNI is created whatever the bases are.
   */
  lemma CreationSucceedsIff(ss: seq<Service>, pons: nat, onus: nat, unis: nat)
    requires DistinctNames(CRules(ss)) && pons > 0 && onus > 0 && unis > 0
    ensures Start(pons, 0, onus, unis) > 0
    ensures AllFit(ss, pons, onus, unis) <==>
              unis <= MAX_UNI_PORTS && UniFits(ss, Start(pons, 0, onus, unis) - 1)
  {
    LastIndex(pons, onus, unis);
    var last := Start(pons - 1, onus - 1, onus, unis);
    if AllFit(ss, pons, onus, unis) {
      assert PonFits(ss, pons - 1, onus, unis, onus);
      assert OnuFits(ss, last, unis);
      assert UniCreated(ss, last, unis - 1);
    }
    if unis <= MAX_UNI_PORTS && UniFits(ss, Start(pons, 0, onus, unis) - 1) {
      forall i: nat, j: nat, u: nat | i < pons && j < onus && u < unis
        ensures UniCreated(ss, Start(i, j, onus, unis), u)
      {
        IndexBound(pons, onus, unis, i, j, u);
        FitsBelow(ss, Start(i, j, onus, unis) + u, Start(pons, 0, onus, unis) - 1);
      }
    }
  }

  lemma FitsBelow(ss: seq<Service>, n: nat, n': nat)
    requires DistinctNames(CRules(ss)) && n <= n' && UniFits(ss, n')
    ensures UniFits(ss, n)
  {
    UniFitsIff(ss, n);
    UniFitsIff(ss, n');
  }

  lemma LastIndex(pons: nat, onus: nat, unis: nat)
    requires pons > 0 && onus > 0 && unis > 0
    ensures Start(pons - 1, onus - 1, onus, unis) + unis == Start(pons, 0, onus, unis)
  {
    StartNext(pons - 1, onus - 1, onus, unis);
  }

  lemma IndexBound(pons: nat, onus: nat, unis: nat, i: nat, j: nat, u: nat)
    requires i < pons && j < onus && u < unis
    ensures Start(i, j, onus, unis) + u < Start(pons, 0, onus, unis)
  {
    MulStep(i, pons, onus);
    MulStep(i * onus + j, pons * onus, unis);
  }
}
