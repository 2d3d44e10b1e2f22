/**
 * The resolver that maps each element of an object store to a product card of
 * the NMD product database, asking the subscribed data services in order
 * (src/org/opensourcebim/nmd/NmdDataResolverImpl.java).
 */
module NmdDataResolvers {

  import opened Wrappers
  import opened NmdProducts
  import opened MpgElements
  import MpgObjects

  /**
   * A data service as the resolver sees it: its product cards (getData), the
   * profile sets getTotaalProfielSetForProductCard fetches per product id.
   */
  datatype NmdDataService = NmdDataService(
    data: seq<NmdProductCard>,
    totaalProfielSets: map<int, seq<NmdProfileSet>>)

  /** getTotaalProfielSetForProductCard: the card with the profile sets the service holds for it, if any. */
  function Fetch(service: NmdDataService, card: NmdProductCard): NmdProductCard {
    if card.productId in service.totaalProfielSets then card.(profileSets := service.totaalProfielSets[card.productId])
    else card
  }

  /** The product types the resolver knows and the NL-SfB code fragments of each. */
  function ProductToNmdMap(): map<string, seq<string>> {
    map[
      "Footing" := ["16."],
      "Wall" := ["21.", "22."],
      "Slab" := ["23."],
      "Stair" := ["24."],
      "Roof" := ["27."],
      "Beam" := ["28."],
      "Window" := ["31.2", "32.2"],
      "Door" := ["31.3", "32.3"]
    ]
  }

  /** `sub` occurs in `s` starting at index i. */
  predicate OccursAt(s: string, sub: string, i: int) {
    0 <= i <= |s| - |sub| && s[i..i + |sub|] == sub
  }

  /** Java's String.contains. */
  predicate Contains(s: string, sub: string) {
    exists i :: 0 <= i <= |s| - |sub| && OccursAt(s, sub, i)
  }

  /** The card's code contains one of the code fragments. */
  predicate MatchesAny(card: NmdProductCard, codes: seq<string>) {
    exists k :: 0 <= k < |codes| && Contains(card.nlsfbCode, codes[k])
  }

  /** The position of the first matching card (the stream's filter + findFirst), or |data| for none. */
  function FirstMatch(data: seq<NmdProductCard>, codes: seq<string>): (i: nat)
    ensures i <= |data|
    ensures i < |data| ==> MatchesAny(data[i], codes)
    ensures forall j :: 0 <= j < i ==> !MatchesAny(data[j], codes)
  {
    if data == [] then 0
    else if MatchesAny(data[0], codes) then 0
    else
      var i := 1 + FirstMatch(data[1..], codes);
      assert forall j :: 1 <= j < i ==> data[j] == data[1..][j - 1];
      i
  }

  /** What one service offers: its first matching card, with its profile sets fetched. */
  function Candidate(service: NmdDataService, codes: seq<string>): Option<NmdProductCard> {
    var i := FirstMatch(service.data, codes);
    if i < |service.data| then Some(Fetch(service, service.data[i])) else None
  }

  /**
   * The service loop: a service without a candidate ends the search with what
   * was found so far; a candidate with profile sets ends it with that
   * candidate; a candidate without profile sets is kept and the next service
   * is tried.
   */
  function ResolveFrom(services: seq<NmdDataService>, codes: seq<string>, found: Option<NmdProductCard>): (r: Option<NmdProductCard>)
    ensures found.Some? ==> r.Some?
    ensures r.Some? && found.None? ==> services != [] && Candidate(services[0], codes).Some?
    decreases |services|
  {
    if services == [] then found
    else match Candidate(services[0], codes)
      case None => found
      case Some(card) =>
        if |card.profileSets| > 0 then Some(card)
        else ResolveFrom(services[1..], codes, Some(card))
  }

  /** The number of services the loop asks for data before it stops. */
  function Consulted(services: seq<NmdDataService>, codes: seq<string>): (n: nat)
    ensures n <= |services|
    ensures services != [] ==> n >= 1
    decreases |services|
  {
    if services == [] then 0
    else match Candidate(services[0], codes)
      case None => 1
      case Some(card) => if |card.profileSets| > 0 then 1 else 1 + Consulted(services[1..], codes)
  }

  /**
   * tryGetMaterialProperties as a function of the services and the element's
   * object: the object is read once per service, so without services nothing
   * is read, and a missing object then throws; an unmapped or missing type
   * gives null.
   */
  function Lookup(services: seq<NmdDataService>, obj: Option<MpgObjectView>): (r: Result<Option<NmdProductCard>>)
    ensures r.Throws? <==> services != [] && obj.None?
    ensures r.Throws? ==> r.exception == NullPointer
    ensures r.Ok? && r.value.Some? ==>
      services != [] && obj.Some? && obj.value.objectType.Some? && obj.value.objectType.value in ProductToNmdMap() &&
      Candidate(services[0], ProductToNmdMap()[obj.value.objectType.value]).Some?
  {
    if services == [] then Ok(None)
    else if obj.None? then Throws(NullPointer)
    else if obj.value.objectType.None? || obj.value.objectType.value !in ProductToNmdMap() then Ok(None)
    else Ok(ResolveFrom(services, ProductToNmdMap()[obj.value.objectType.value], None))
  }

  /** The services whose data a lookup reads. */
  function QueriedBy(services: seq<NmdDataService>, obj: Option<MpgObjectView>): nat {
    if services == [] || obj.None? || obj.value.objectType.None? || obj.value.objectType.value !in ProductToNmdMap() then 0
    else Consulted(services, ProductToNmdMap()[obj.value.objectType.value])
  }

  /** The card an element holds after resolution: the looked-up one, or its previous one when the lookup gives null. */
  function Bound(previous: Option<NmdProductCard>, lookup: Result<Option<NmdProductCard>>): Option<NmdProductCard> {
    if lookup.Ok? && lookup.value.Some? then lookup.value else previous
  }

  /** The table holds exactly the eight product types, with these code fragments. */
  lemma ProductTable()
    ensures ProductToNmdMap().Keys == {"Footing", "Wall", "Slab", "Stair", "Roof", "Beam", "Window", "Door"}
    ensures ProductToNmdMap()["Wall"] == ["21.", "22."] && ProductToNmdMap()["Window"] == ["31.2", "32.2"]
    ensures forall t :: t in ProductToNmdMap() ==> 1 <= |ProductToNmdMap()[t]| <= 2
  {
  }

  /** An object whose type the table does not list resolves to null, and no service is asked for data. */
  lemma UnmappedTypeResolvesToNull(services: seq<NmdDataService>, obj: MpgObjectView)
    requires obj.objectType.None? || obj.objectType.value !in ProductToNmdMap()
    ensures Lookup(services, Some(obj)) == Ok(None)
    ensures QueriedBy(services, Some(obj)) == 0
  {
  }

  /** A card qualifies when a fragment occurs anywhere in its code, not just at its start. */
  lemma SubstringNotPrefix()
    ensures MatchesAny(NmdProductCard(1, "NL-21.10", "m2", []), ["21.", "22."])
    ensures !MatchesAny(NmdProductCard(2, "16.1", "m3", []), ["21.", "22."])
  {
    assert OccursAt("NL-21.10", "21.", 3);
    assert Contains(NmdProductCard(1, "NL-21.10", "m2", []).nlsfbCode, ["21.", "22."][0]);
    assert "16.1"[0..3] == "16." && "16.1"[1..4] == "6.1";
    assert !Contains("16.1", "21.") && !Contains("16.1", "22.");
  }

  /** Every service before the last one asked had a candidate without profile sets. */
  lemma {:induction false} ConsultedPassOn(services: seq<NmdDataService>, codes: seq<string>)
    ensures forall i :: 0 <= i < Consulted(services, codes) - 1 ==>
      Candidate(services[i], codes).Some? && |Candidate(services[i], codes).value.profileSets| == 0
    decreases |services|
  {
    if services != [] {
      var c := Candidate(services[0], codes);
      if c.Some? && |c.value.profileSets| == 0 {
        ConsultedPassOn(services[1..], codes);
        forall i | 0 <= i < Consulted(services, codes) - 1
          ensures Candidate(services[i], codes).Some? && |Candidate(services[i], codes).value.profileSets| == 0
        {
          if i > 0 {
            assert services[i] == services[1..][i - 1];
          }
        }
      }
    }
  }

  /** Unless the services ran out, the last one asked had no candidate or one with profile sets. */
  lemma {:induction false} ConsultedStopsEarly(services: seq<NmdDataService>, codes: seq<string>)
    requires services != []
    ensures var n := Consulted(services, codes);
      n < |services| ==>
        Candidate(services[n - 1], codes).None? || |Candidate(services[n - 1], codes).value.profileSets| > 0
    decreases |services|
  {
    var c := Candidate(services[0], codes);
    if c.Some? && |c.value.profileSets| == 0 && |services| > 1 {
      ConsultedStopsEarly(services[1..], codes);
      var m := Consulted(services[1..], codes);
      assert services[m] == services[1..][m - 1];
    }
  }

  /** The search returns the last candidate found, or what was found before it when it found none. */
  lemma {:induction false} ResolveIsLastCandidate(services: seq<NmdDataService>, codes: seq<string>, found: Option<NmdProductCard>)
    requires services != []
    ensures var n := Consulted(services, codes);
      ResolveFrom(services, codes, found) ==
        if Candidate(services[n - 1], codes).Some? then Candidate(services[n - 1], codes)
        else if n >= 2 then Candidate(services[n - 2], codes)
        else found
    decreases |services|
  {
    var c := Candidate(services[0], codes);
    if c.Some? && |c.value.profileSets| == 0 && |services| > 1 {
      ResolveIsLastCandidate(services[1..], codes, c);
      var m := Consulted(services[1..], codes);
      assert services[m] == services[1..][m - 1];
      if m >= 2 {
        assert services[m - 1] == services[1..][m - 2];
      }
    }
  }

  /**
   * Where the search stops and what it returns: every service before the last
   * one asked had a candidate without profile sets; the last one asked had no
   * candidate or one with profile sets (unless the services ran out); the
   * result is the last candidate found, or what was found before the search.
   */
  lemma ResolveStops(services: seq<NmdDataService>, codes: seq<string>, found: Option<NmdProductCard>)
    requires services != []
    ensures var n := Consulted(services, codes);
      (forall i :: 0 <= i < n - 1 ==>
         Candidate(services[i], codes).Some? && |Candidate(services[i], codes).value.profileSets| == 0) &&
      (n < |services| ==>
         Candidate(services[n - 1], codes).None? || |Candidate(services[n - 1], codes).value.profileSets| > 0) &&
      ResolveFrom(services, codes, found) ==
        if Candidate(services[n - 1], codes).Some? then Candidate(services[n - 1], codes)
        else if n >= 2 then Candidate(services[n - 2], codes)
        else found
  {
    ConsultedPassOn(services, codes);
    ConsultedStopsEarly(services, codes);
    ResolveIsLastCandidate(services, codes, found);
  }

  /**
   * No fall-through: when the first service has no candidate the search stops
   * with null, whatever later services hold.
   */
  lemma NoFallThrough(first: NmdDataService, rest: seq<NmdDataService>, codes: seq<string>)
    requires Candidate(first, codes).None?
    ensures ResolveFrom([first] + rest, codes, None) == None
    ensures Consulted([first] + rest, codes) == 1
  {
  }

  /**
   * A candidate without profile sets is returned when the next service has no
   * candidate, and replaced when it has one.
   */
  lemma EmptyCandidateIsKept(first: NmdDataService, second: NmdDataService, codes: seq<string>)
    requires Candidate(first, codes).Some? && |Candidate(first, codes).value.profileSets| == 0
    ensures Candidate(second, codes).None? ==> ResolveFrom([first, second], codes, None) == Candidate(first, codes)
    ensures Candidate(second, codes).Some? ==> ResolveFrom([first, second], codes, None) == Candidate(second, codes)
  {
    assert [first, second][1..] == [second];
    assert [second][1..] == [];
    if Candidate(second, codes).Some? {
      assert ResolveFrom([second], codes, Candidate(first, codes)) == Candidate(second, codes);
    }
  }

  /** Every card the lookup returns is the first matching card of some service's data, with fetched profile sets. */
  lemma {:induction false} ResolvedCardIsFirstMatch(services: seq<NmdDataService>, codes: seq<string>)
    requires ResolveFrom(services, codes, None).Some?
    ensures exists s, i ::
      (0 <= s < |services| && 0 <= i < |services[s].data| &&
       MatchesAny(services[s].data[i], codes) &&
       (forall j :: 0 <= j < i ==> !MatchesAny(services[s].data[j], codes)) &&
       ResolveFrom(services, codes, None).value == Fetch(services[s], services[s].data[i]))
  {
    ResolveStops(services, codes, None);
    var n := Consulted(services, codes);
    var s := if Candidate(services[n - 1], codes).Some? then n - 1 else n - 2;
    var i := FirstMatch(services[s].data, codes);
    assert 0 <= s < |services| && 0 <= i < |services[s].data|;
  }

  /** One call made to a data service, or one element resolved. */
  datatype SessionEvent = Login(service: nat) | PreLoad(service: nat) | Resolved(element: nat) | Logout(service: nat)

  /** Login and preload of the first n services, in order. */
  function StartupEvents(n: nat): seq<SessionEvent> {
    seq(2 * n, j requires 0 <= j < 2 * n => if j % 2 == 0 then Login(j / 2) else PreLoad(j / 2))
  }

  function ResolvedEvents(p: nat): seq<SessionEvent> {
    seq(p, j requires 0 <= j < p => Resolved(j))
  }

  function LogoutEvents(n: nat): seq<SessionEvent> {
    seq(n, j requires 0 <= j < n => Logout(j))
  }

  /**
   * The session discipline of a run: no element is resolved before every
   * service is logged in and preloaded, no service is logged out before the
   * end, and the run ends with every service logged out once, in order.
   */
  lemma SessionDiscipline(n: nat, p: nat, t: seq<SessionEvent>)
    requires t == StartupEvents(n) + ResolvedEvents(p) + LogoutEvents(n)
    ensures forall j, i :: 0 <= j < |t| && t[j].Resolved? && 0 <= i < n ==>
      Login(i) in t[..j] && PreLoad(i) in t[..j]
    ensures forall j :: 0 <= j < |t| - n ==> !t[j].Logout?
    ensures |t| >= n && t[|t| - n..] == LogoutEvents(n)
  {
    forall j, i | 0 <= j < |t| && t[j].Resolved? && 0 <= i < n
      ensures Login(i) in t[..j] && PreLoad(i) in t[..j]
    {
      assert 2 * n <= j;
      assert t[..j][2 * i] == Login(i);
      assert t[..j][2 * i + 1] == PreLoad(i);
    }
    assert t[|t| - n..] == LogoutEvents(n);
  }

  /** A service failing at login still sees every service logged out afterwards, and no element is resolved. */
  lemma AbortedSessionLogsOut(n: nat, i: nat, t: seq<SessionEvent>)
    requires i < n
    requires t == StartupEvents(i) + [Login(i)] + LogoutEvents(n)
    ensures forall j :: 0 <= j < |t| ==> !t[j].Resolved?
    ensures t[|t| - n..] == LogoutEvents(n)
  {
    assert t[|t| - n..] == LogoutEvents(n);
  }

  lemma StartupStep(n: nat)
    ensures StartupEvents(n + 1) == StartupEvents(n) + [Login(n), PreLoad(n)]
  {
    assert (2 * n) % 2 == 0 && (2 * n) / 2 == n;
    assert (2 * n + 1) % 2 == 1 && (2 * n + 1) / 2 == n;
  }

  /**
   * When an ArrayIndexOutOfBoundsException interrupts a run: the login of a
   * service, the lookup of an element, or never.  The exception is raised
   * inside the services' own code, which is not part of this model.
   */
  datatype Fault = NoFault | AtLogin(service: nat) | AtElement(element: nat)

  ghost function Views(es: seq<MpgElement>): seq<Option<MpgObjectView>>
    reads set e | e in es
  {
    seq(|es|, j requires 0 <= j < |es| reads es => es[j].mpgObject)
  }

  ghost function Cards(es: seq<MpgElement>): seq<Option<NmdProductCard>>
    reads set e | e in es
  {
    seq(|es|, j requires 0 <= j < |es| reads es => es[j].nmdProductCard)
  }

  lemma ViewsUnchanged(es: seq<MpgElement>, objs: seq<Option<MpgObjectView>>)
    requires Views(es) == objs
    ensures forall j :: 0 <= j < |es| ==> es[j].mpgObject == objs[j]
  {
  }

  /**
   * The element loop's invariant after k elements: each of the first k holds
   * the card bound by its lookup, each later element not among them still
   * holds its card from before the loop.
   */
  ghost predicate BoundBefore(services: seq<NmdDataService>, es: seq<MpgElement>, objs: seq<Option<MpgObjectView>>,
                              cards0: seq<Option<NmdProductCard>>, k: nat)
    requires k <= |es| && |objs| == |es| && |cards0| == |es|
    reads set e | e in es
  {
    (forall i, j :: 0 <= i < |es| && 0 <= j < |es| && es[i] == es[j] ==> cards0[i] == cards0[j]) &&
    (forall j :: 0 <= j < k ==> es[j].nmdProductCard == Bound(cards0[j], Lookup(services, objs[j]))) &&
    (forall j :: k <= j < |es| && es[j] !in es[..k] ==> es[j].nmdProductCard == cards0[j])
  }

  /** The first element whose lookup throws, or the number of elements. */
  function FirstFailure(services: seq<NmdDataService>, objs: seq<Option<MpgObjectView>>): (f: nat)
    ensures f <= |objs|
    ensures forall j :: 0 <= j < f ==> Lookup(services, objs[j]).Ok?
    ensures f < |objs| ==> Lookup(services, objs[f]).Throws?
  {
    if objs == [] then 0
    else if Lookup(services, objs[0]).Throws? then 0
    else
      var f := 1 + FirstFailure(services, objs[1..]);
      assert forall j :: 1 <= j < f ==> objs[j] == objs[1..][j - 1];
      f
  }

  /** The number of elements resolved before the run stops, when the services all start. */
  function StopIndex(services: seq<NmdDataService>, objs: seq<Option<MpgObjectView>>, fault: Fault): nat {
    var f := FirstFailure(services, objs);
    if fault.AtElement? && fault.element < f then fault.element else f
  }

  class NmdDataResolverImpl {
    var services: seq<NmdDataService>
    ghost var trace: seq<SessionEvent>

    /** The resolver starts with the NMD database session as its one service. */
    constructor (defaultService: NmdDataService)
      ensures services == [defaultService] && trace == []
    {
      services := [defaultService];
      trace := [];
    }

    /** Appends a service, also one already present; the editable marker is not consulted. */
    method AddService(service: NmdDataService)
      modifies this`services
      ensures services == old(services) + [service]
    {
      services := services + [service];
    }

    /** The product-type table, rebuilt on every call. */
    method GetProductToNmdMap() returns (productMap: map<string, seq<string>>)
      ensures productMap == ProductToNmdMap()
    {
      productMap := map[];
      productMap := productMap["Footing" := ["16."]];
      productMap := productMap["Wall" := ["21.", "22."]];
      productMap := productMap["Slab" := ["23."]];
      productMap := productMap["Stair" := ["24."]];
      productMap := productMap["Roof" := ["27."]];
      productMap := productMap["Beam" := ["28."]];
      productMap := productMap["Window" := ["31.2", "32.2"]];
      productMap := productMap["Door" := ["31.3", "32.3"]];
    }

    /**
     * The service loop of tryGetMaterialProperties; `queried` counts the
     * services whose data it reads.
     */
    method TryGetMaterialProperties(material: MpgElement) returns (r: Result<Option<NmdProductCard>>, ghost queried: nat)
      ensures r == Lookup(services, material.mpgObject)
      ensures queried == QueriedBy(services, material.mpgObject)
    {
      var retrievedMaterial: Option<NmdProductCard> := None;
      var productMap := GetProductToNmdMap();
      queried := 0;
      var i := 0;
      while i < |services|
        invariant 0 <= i <= |services|
        invariant i > 0 ==>
          (material.mpgObject.Some? && material.mpgObject.value.objectType.Some? &&
           material.mpgObject.value.objectType.value in productMap)
        invariant i > 0 ==>
          var codes := productMap[material.mpgObject.value.objectType.value];
          retrievedMaterial.Some? &&
          ResolveFrom(services[i..], codes, retrievedMaterial) == ResolveFrom(services, codes, None) &&
          Consulted(services, codes) == i + Consulted(services[i..], codes)
        invariant i == 0 ==> retrievedMaterial.None?
        invariant queried == i
      {
        if material.mpgObject.None? {
          return Throws(NullPointer), 0;
        }
        var ifcProductType := material.mpgObject.value.objectType;
        if ifcProductType.None? || ifcProductType.value !in productMap {
          break;
        }
        var foundMap := productMap[ifcProductType.value];
        var service := services[i];
        queried := queried + 1;
        var first := FirstMatch(service.data, foundMap);
        assert services[i..][0] == service;
        if first == |service.data| {
          assert Candidate(service, foundMap).None?;
          break;
        }
        retrievedMaterial := Some(Fetch(service, service.data[first]));
        assert Candidate(service, foundMap) == retrievedMaterial;
        if |retrievedMaterial.value.profileSets| > 0 {
          break;
        }
        assert services[i..][1..] == services[i + 1..];
        i := i + 1;
      }
      r := Ok(retrievedMaterial);
    }

    /** The login and preload loop; returns the service whose login raised the fault, if any. */
    method StartServices(fault: Fault) returns (failedAt: Option<nat>)
      modifies this`trace
      ensures failedAt == (if fault.AtLogin? && fault.service < |services| then Some(fault.service) else None)
      ensures failedAt.None? ==> trace == old(trace) + StartupEvents(|services|)
      ensures failedAt.Some? ==> trace == old(trace) + StartupEvents(failedAt.value) + [Login(failedAt.value)]
    {
      failedAt := None;
      var i := 0;
      while i < |services|
        invariant 0 <= i <= |services|
        invariant trace == old(trace) + StartupEvents(i)
        invariant forall j :: 0 <= j < i ==> fault != AtLogin(j)
      {
        trace := trace + [Login(i)];
        if fault == AtLogin(i) {
          failedAt := Some(i);
          return;
        }
        trace := trace + [PreLoad(i)];
        StartupStep(i);
        i := i + 1;
      }
    }

    /**
     * One pass of the element loop: look the element up, stop on a thrown
     * exception or the fault, otherwise bind the card found (keeping the
     * element's own on null).
     */
    method ResolveStep(es: seq<MpgElement>, k: nat, element: MpgElement, fault: Fault, ghost objs: seq<Option<MpgObjectView>>,
                       ghost cards0: seq<Option<NmdProductCard>>) returns (failure: Option<Exception>, stop: bool)
      requires k < |es| && es[k] == element && |objs| == |es| && |cards0| == |es|
      requires Views(es) == objs
      requires BoundBefore(services, es, objs, cards0, k)
      modifies this`trace, element`nmdProductCard
      ensures Views(es) == objs
      ensures stop <==> Lookup(services, objs[k]).Throws? || fault == AtElement(k)
      ensures failure == if Lookup(services, objs[k]).Throws? then Some(NullPointer) else None
      ensures stop ==> trace == old(trace) && BoundBefore(services, es, objs, cards0, k)
      ensures !stop ==> trace == old(trace) + [Resolved(k)] && BoundBefore(services, es, objs, cards0, k + 1)
    {
      var nmdMaterial, _ := TryGetMaterialProperties(element);
      assert objs[k] == element.mpgObject;
      if nmdMaterial.Throws? {
        return Some(nmdMaterial.exception), true;
      }
      if fault == AtElement(k) {
        return None, true;
      }
      label BeforeBinding:
      if nmdMaterial.value.Some? {
        element.SetProductCard(nmdMaterial.value);
      }
      trace := trace + [Resolved(k)];
      failure, stop := None, false;
      assert es[..k + 1] == es[..k] + [element];
      forall j | 0 <= j < k + 1
        ensures es[j].nmdProductCard == Bound(cards0[j], Lookup(services, objs[j]))
      {
        if es[j] == element {
          assert objs[j] == objs[k];
          if j < k {
            assert old@BeforeBinding(element.nmdProductCard) == Bound(cards0[j], Lookup(services, objs[k]));
          } else if element in es[..k] {
            var i :| 0 <= i < k && es[..k][i] == element;
            assert es[i] == element && objs[i] == objs[k] && cards0[i] == cards0[k];
            assert old@BeforeBinding(element.nmdProductCard) == Bound(cards0[i], Lookup(services, objs[k]));
          } else {
            assert old@BeforeBinding(element.nmdProductCard) == cards0[k];
          }
        } else {
          assert es[j].nmdProductCard == old@BeforeBinding(es[j].nmdProductCard);
        }
      }
      forall j | k + 1 <= j < |es| && es[j] !in es[..k + 1]
        ensures es[j].nmdProductCard == cards0[j]
      {
        assert es[j] != element && es[j] !in es[..k];
      }
    }

    /**
     * The element loop: each element in order gets the card its lookup finds
     * (or keeps its own on null); the loop ends at the fault's element or at
     * the first element whose lookup throws, whichever comes first.
     */
    method ResolveElements(es: seq<MpgElement>, fault: Fault) returns (failure: Option<Exception>)
      modifies this`trace, set e | e in es
      ensures forall e :: e in es ==> e.mpgObject == old(e.mpgObject) && e.bimBotIdentifier == old(e.bimBotIdentifier)
      ensures var p := StopIndex(services, old(Views(es)), fault);
        trace == old(trace) + ResolvedEvents(p) &&
        failure == (if p < |es| && p == FirstFailure(services, old(Views(es))) then Some(NullPointer) else None) &&
        (forall j :: 0 <= j < p ==>
           es[j].nmdProductCard == Bound(old(es[j].nmdProductCard), Lookup(services, es[j].mpgObject))) &&
        (forall e :: e in es && e !in es[..p] ==> e.nmdProductCard == old(e.nmdProductCard))
    {
      ghost var objs := Views(es);
      ghost var cards0 := Cards(es);
      failure := None;
      var k := 0;
      while k < |es|
        invariant 0 <= k <= |es|
        invariant forall e :: e in es ==> e.bimBotIdentifier == old(e.bimBotIdentifier)
        invariant Views(es) == objs
        invariant forall j :: 0 <= j < k ==> Lookup(services, objs[j]).Ok? && fault != AtElement(j)
        invariant BoundBefore(services, es, objs, cards0, k)
        invariant trace == old(trace) + ResolvedEvents(k)
        invariant failure == None
      {
        var stop;
        failure, stop := ResolveStep(es, k, es[k], fault, objs, cards0);
        if stop {
          assert Lookup(services, objs[k]).Throws? ==> k == FirstFailure(services, objs);
          assert Lookup(services, objs[k]).Ok? ==> k < FirstFailure(services, objs);
          assert k == StopIndex(services, objs, fault);
          break;
        }
        assert ResolvedEvents(k + 1) == ResolvedEvents(k) + [Resolved(k)];
        k := k + 1;
      }
      assert k == StopIndex(services, objs, fault);
      ViewsUnchanged(es, objs);
      forall e | e in es && e !in es[..k]
        ensures e.nmdProductCard == old(e.nmdProductCard)
      {
        var i :| 0 <= i < |es| && es[i] == e;
        assert es[i] !in es[..k];
        assert es[i].nmdProductCard == cards0[i];
        assert cards0[i] == old(es[i].nmdProductCard);
      }
    }

    /** The logout loop of the finally block. */
    method StopServices()
      modifies this`trace
      ensures trace == old(trace) + LogoutEvents(|services|)
    {
      var j := 0;
      while j < |services|
        invariant 0 <= j <= |services|
        invariant trace == old(trace) + LogoutEvents(j)
      {
        assert LogoutEvents(j + 1) == LogoutEvents(j) + [Logout(j)];
        trace := trace + [Logout(j)];
        j := j + 1;
      }
    }

    /**
     * NmdToMpg: log in and preload every service, resolve every element of the
     * store in order, and log out of every service whatever happened.  An
     * ArrayIndexOutOfBoundsException (`fault`) is caught and the store is
     * returned; the NullPointerException of an element without an object
     * escapes after the logouts.
     */
    method NmdToMpg(ifcResults: MpgObjects.MpgObjectStore, fault: Fault) returns (result: Result<MpgObjects.MpgObjectStore>)
      modifies this`trace, set e | e in ifcResults.elements
      ensures result.Ok? ==> result.value == ifcResults
      ensures forall e :: e in ifcResults.elements ==>
        e.mpgObject == old(e.mpgObject) && e.bimBotIdentifier == old(e.bimBotIdentifier)
      ensures fault.AtLogin? && fault.service < |services| ==>
        result == Ok(ifcResults) &&
        trace == old(trace) + StartupEvents(fault.service) + [Login(fault.service)] + LogoutEvents(|services|) &&
        forall e :: e in ifcResults.elements ==> e.nmdProductCard == old(e.nmdProductCard)
      ensures !(fault.AtLogin? && fault.service < |services|) ==>
        var es := ifcResults.elements;
        var p := StopIndex(services, old(Views(es)), fault);
        trace == old(trace) + StartupEvents(|services|) + ResolvedEvents(p) + LogoutEvents(|services|) &&
        result == (if p < |es| && p == FirstFailure(services, old(Views(es))) then Throws(NullPointer) else Ok(ifcResults)) &&
        (forall j :: 0 <= j < p ==>
           es[j].nmdProductCard == Bound(old(es[j].nmdProductCard), Lookup(services, es[j].mpgObject))) &&
        (forall e :: e in es && e !in es[..p] ==> e.nmdProductCard == old(e.nmdProductCard))
    {
      var nmdResults := ifcResults;
      result := Ok(nmdResults);
      // try: start every subscribed service, then resolve the elements
      var failedAt := StartServices(fault);
      if failedAt.None? {
        var failure := ResolveElements(ifcResults.elements, fault);
        if failure.Some? {
          result := Throws(failure.value);
        }
      }
      // finally: log out of every service
      StopServices();
    }
  }
}
