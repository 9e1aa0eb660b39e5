/**
 * Anomalies and incidents: the two-way links, the facts each incident carries, and the
 * distance in time between incidents of one device and signal.
 */
module Linkage {
  import opened Basics
  import opened Decimal
  import opened Domain
  import opened IncidentFacts

  type Incidents = map<string, Incident>

  // An identifier nextID has handed out by the time its counter is n.
  ghost predicate Issued(prefix: string, id: string, n: nat) {
    exists k: nat :: 1 <= k <= n && id == NumberedId(prefix, k)
  }

  lemma NextIsFresh(prefix: string, n: nat, m: nat)
    requires n < m
    ensures !Issued(prefix, NumberedId(prefix, m), n) && Issued(prefix, NumberedId(prefix, m), m)
  {
    forall k: nat | 1 <= k <= n
      ensures NumberedId(prefix, m) != NumberedId(prefix, k)
    {
      NumberedIdsDiffer(prefix, m, k);
    }
  }

  ghost predicate IdsIssued(an: Anomalies, inc: Incidents, n: nat) {
    && (forall x | x in an :: Issued("anomaly", x, n))
    && (forall i | i in inc :: Issued("incident", i, n))
  }

  // Every incident carries its facts, and every anomaly it lists points back at it.
  ghost predicate IncidentsGood(an: Anomalies, inc: Incidents, ac: Actions, ev: EvidenceItems, now: int) {
    forall i | i in inc :: inc[i].id == i && Good(an, ac, ev, now, inc[i]) && PointBack(an, inc[i])
  }

  ghost predicate PointBack(an: Anomalies, i: Incident) {
    forall x | x in i.anomalyIds :: x in an && an[x].incidentId == i.id
  }

  // Every anomaly is either unlinked or listed by the incident it names.
  ghost predicate AnomaliesLinked(an: Anomalies, inc: Incidents) {
    forall x | x in an ::
      && an[x].id == x
      && (an[x].incidentId == "" || (an[x].incidentId in inc && x in inc[an[x].incidentId].anomalyIds))
  }

  ghost predicate Alike(an: Anomalies, a: Incident, b: Incident) {
    && a.deviceId == b.deviceId && ListsFindings(an, a) && ListsFindings(an, b)
    && SignalOf(an, a) == SignalOf(an, b)
  }

  ghost predicate FarApart(a: Incident, b: Incident) {
    a.openedAt - b.openedAt > TEN_MINUTES || b.openedAt - a.openedAt > TEN_MINUTES
  }

  // Distinct open incidents of one device and signal were opened more than ten minutes apart.
  ghost predicate Separated(an: Anomalies, inc: Incidents) {
    forall i, j | i in inc && j in inc && i != j && inc[i].status != Closed && inc[j].status != Closed && Alike(an, inc[i], inc[j]) ::
      FarApart(inc[i], inc[j])
  }

  // The first anomaly was found before its incident was opened; every other one after that, and
  // no more than ten minutes later.
  ghost predicate JoinedInTime(an: Anomalies, i: Incident) {
    forall k | 0 <= k < |i.anomalyIds| ::
      && i.anomalyIds[k] in an
      && var found := an[i.anomalyIds[k]].createdAt;
         if k == 0 then found <= i.openedAt else i.openedAt <= found <= i.openedAt + TEN_MINUTES
  }

  ghost predicate AllInTime(an: Anomalies, inc: Incidents) {
    forall i | i in inc :: JoinedInTime(an, inc[i])
  }

  ghost predicate Core(an: Anomalies, inc: Incidents, ac: Actions, ev: EvidenceItems, now: int, n: nat) {
    && IncidentsGood(an, inc, ac, ev, now) && AnomaliesLinked(an, inc) && Separated(an, inc) && IdsIssued(an, inc, n)
    && AllInTime(an, inc)
  }

  // Each anomaly names exactly one incident, which lists it exactly once and is the only one to.
  ghost predicate Partition(an: Anomalies, inc: Incidents) {
    && (forall x | x in an :: an[x].incidentId in inc && x in inc[an[x].incidentId].anomalyIds)
    && (forall i | i in inc :: NoRepeats(inc[i].anomalyIds) && forall x | x in inc[i].anomalyIds :: x in an && an[x].incidentId == i)
  }

  ghost function Orphans(an: Anomalies): set<string> {
    set x | x in an && an[x].incidentId == ""
  }

  /** Under the invariant the links form a partition exactly when no anomaly is unlinked. */
  lemma PartitionIffNoOrphans(an: Anomalies, inc: Incidents, ac: Actions, ev: EvidenceItems, now: int, n: nat)
    requires Core(an, inc, ac, ev, now, n)
    ensures Partition(an, inc) <==> Orphans(an) == {}
  {
    hide PeakSeverity, ListsOwn, Justified, Separated, AllInTime;
    if Partition(an, inc) {
      forall x | x in an ensures an[x].incidentId != "" {
        var k: nat :| 1 <= k <= n && an[x].incidentId == NumberedId("incident", k);
      }
    }
    forall x | x in an && an[x].incidentId == ""
      ensures x in Orphans(an)
    {
    }
  }

  // ----- What each change does to the core, one part at a time -----

  lemma IssuedLater(prefix: string, ids: set<string>, n: nat, n': nat)
    requires n <= n' && forall x | x in ids :: Issued(prefix, x, n)
    ensures forall x | x in ids :: Issued(prefix, x, n')
  {
    forall x | x in ids ensures Issued(prefix, x, n') {
      var k: nat :| 1 <= k <= n && x == NumberedId(prefix, k);
    }
  }

  lemma IdsLater(an: Anomalies, inc: Incidents, n: nat, n': nat)
    requires IdsIssued(an, inc, n) && n <= n'
    ensures IdsIssued(an, inc, n')
  {
    IssuedLater("anomaly", an.Keys, n, n');
    IssuedLater("incident", inc.Keys, n, n');
  }

  lemma Nonempty(an: Anomalies, inc: Incidents, n: nat, i: string)
    requires IdsIssued(an, inc, n) && i in inc
    ensures i != ""
  {
    var k: nat :| 1 <= k <= n && i == NumberedId("incident", k);
  }

  lemma IncidentsGoodLater(an: Anomalies, inc: Incidents, ac: Actions, ac': Actions, ev: EvidenceItems, ev': EvidenceItems, now: int, now': int)
    requires IncidentsGood(an, inc, ac, ev, now)
    requires ActionsGrow(ac, ac') && EvidenceGrows(ev, ev') && now <= now'
    ensures IncidentsGood(an, inc, ac', ev', now')
  {
    forall i | i in inc ensures Good(an, ac', ev', now', inc[i]) {
      GoodIsStable(an, an, ac, ac', ev, ev', now, now', inc[i]);
    }
  }

  // Growth that leaves incidents, findings and links alone.
  lemma CoreLater(an: Anomalies, inc: Incidents, ac: Actions, ac': Actions, ev: EvidenceItems, ev': EvidenceItems,
                  now: int, now': int, n: nat, n': nat)
    requires Core(an, inc, ac, ev, now, n)
    requires ActionsGrow(ac, ac') && EvidenceGrows(ev, ev') && now <= now' && n <= n'
    ensures Core(an, inc, ac', ev', now', n')
  {
    IncidentsGoodLater(an, inc, ac, ac', ev, ev', now, now');
    IdsLater(an, inc, n, n');
  }

  // The distances only depend on device, signal, opening time, and on being closed.
  lemma DistancesKept(an: Anomalies, an': Anomalies, inc: Incidents, inc': Incidents)
    requires Separated(an, inc) && inc'.Keys == inc.Keys
    requires forall j | j in inc ::
               && inc'[j].openedAt == inc[j].openedAt && inc'[j].deviceId == inc[j].deviceId
               && (inc[j].status == Closed ==> inc'[j].status == Closed)
               && ListsFindings(an, inc[j]) && SignalOf(an', inc'[j]) == SignalOf(an, inc[j])
    ensures Separated(an', inc')
  {
    forall p, q | p in inc' && q in inc' && p != q && inc'[p].status != Closed && inc'[q].status != Closed && Alike(an', inc'[p], inc'[q])
      ensures FarApart(inc'[p], inc'[q])
    {
      assert Alike(an, inc[p], inc[q]);
    }
  }

  // Replacing one incident by a version with the same identity, findings and opening time.
  lemma CoreAfterUpdate(an: Anomalies, inc: Incidents, ac: Actions, ev: EvidenceItems, now: int, n: nat, i: string, i': Incident)
    requires Core(an, inc, ac, ev, now, n) && i in inc
    requires i'.id == i && i'.deviceId == inc[i].deviceId && i'.openedAt == inc[i].openedAt && i'.anomalyIds == inc[i].anomalyIds
    requires inc[i].status == Closed ==> i'.status == Closed
    requires Good(an, ac, ev, now, i')
    ensures Core(an, inc[i := i'], ac, ev, now, n)
  {
    IsPointedBackAt(an, inc, ac, ev, now, i, i');
    InTimeAfterUpdate(an, inc, i, i');
    hide Good, PointBack, AnomaliesLinked, Separated, IncidentsGood, IdsIssued, AllInTime;
    UpdateKeepsDistances(an, inc, ac, ev, now, i, i');
    UpdateKeepsGood(an, inc, ac, ev, now, i, i');
    UpdateKeepsLinks(an, inc, i, i');
    UpdateKeepsNumbers(an, inc, n, i, i');
  }

  lemma UpdateKeepsNumbers(an: Anomalies, inc: Incidents, n: nat, i: string, i': Incident)
    requires IdsIssued(an, inc, n) && i in inc
    ensures IdsIssued(an, inc[i := i'], n)
  {
  }

  lemma UpdateKeepsDistances(an: Anomalies, inc: Incidents, ac: Actions, ev: EvidenceItems, now: int, i: string, i': Incident)
    requires Separated(an, inc) && IncidentsGood(an, inc, ac, ev, now) && i in inc
    requires i'.deviceId == inc[i].deviceId && i'.openedAt == inc[i].openedAt && i'.anomalyIds == inc[i].anomalyIds
    requires inc[i].status == Closed ==> i'.status == Closed
    ensures Separated(an, inc[i := i'])
  {
    GoodImpliesLists(an, inc, ac, ev, now);
    assert inc[i := i'].Keys == inc.Keys;
    hide Separated, IncidentsGood, ListsFindings;
    DistancesKept(an, an, inc, inc[i := i']);
  }

  lemma IsPointedBackAt(an: Anomalies, inc: Incidents, ac: Actions, ev: EvidenceItems, now: int, i: string, i': Incident)
    requires IncidentsGood(an, inc, ac, ev, now) && i in inc && i'.id == i && i'.anomalyIds == inc[i].anomalyIds
    ensures PointBack(an, i')
  {
    hide Good;
  }

  lemma GoodImpliesLists(an: Anomalies, inc: Incidents, ac: Actions, ev: EvidenceItems, now: int)
    requires IncidentsGood(an, inc, ac, ev, now)
    ensures forall j | j in inc :: ListsFindings(an, inc[j])
  {
  }

  lemma UpdateKeepsGood(an: Anomalies, inc: Incidents, ac: Actions, ev: EvidenceItems, now: int, i: string, i': Incident)
    requires IncidentsGood(an, inc, ac, ev, now)
    requires i'.id == i && Good(an, ac, ev, now, i') && PointBack(an, i')
    ensures IncidentsGood(an, inc[i := i'], ac, ev, now)
  {
  }

  lemma UpdateKeepsLinks(an: Anomalies, inc: Incidents, i: string, i': Incident)
    requires AnomaliesLinked(an, inc) && i in inc
    requires forall x | x in inc[i].anomalyIds :: x in i'.anomalyIds
    ensures AnomaliesLinked(an, inc[i := i'])
  {
  }

  // What the incidents see when a finding is added or linked that none of them lists.
  lemma UnlistedKeepsGood(an: Anomalies, inc: Incidents, ac: Actions, ev: EvidenceItems, now: int, a: Anomaly)
    requires IncidentsGood(an, inc, ac, ev, now)
    requires a.id in an ==> SameFinding(an[a.id], a)
    requires forall j | j in inc :: a.id !in inc[j].anomalyIds
    ensures IncidentsGood(an[a.id := a], inc, ac, ev, now)
    ensures forall j | j in inc :: SignalOf(an[a.id := a], inc[j]) == SignalOf(an, inc[j])
  {
    forall j | j in inc
      ensures Good(an[a.id := a], ac, ev, now, inc[j]) && SignalOf(an[a.id := a], inc[j]) == SignalOf(an, inc[j])
    {
      GoodIsStable(an, an[a.id := a], ac, ac, ev, ev, now, now, inc[j]);
    }
  }

  lemma UnlistedChange(an: Anomalies, inc: Incidents, ac: Actions, ev: EvidenceItems, now: int, a: Anomaly)
    requires IncidentsGood(an, inc, ac, ev, now) && Separated(an, inc)
    requires a.id in an ==> SameFinding(an[a.id], a)
    requires forall j | j in inc :: a.id !in inc[j].anomalyIds
    ensures IncidentsGood(an[a.id := a], inc, ac, ev, now) && Separated(an[a.id := a], inc)
    ensures forall j | j in inc :: SignalOf(an[a.id := a], inc[j]) == SignalOf(an, inc[j])
  {
    hide Good, SignalOf, Separated;
    var an' := an[a.id := a];
    UnlistedKeepsGood(an, inc, ac, ev, now, a);
    GoodImpliesLists(an, inc, ac, ev, now);
    DistancesKept(an, an', inc, inc);
  }

  lemma UnlinkedIsUnlisted(an: Anomalies, inc: Incidents, ac: Actions, ev: EvidenceItems, now: int, n: nat, x: string)
    requires IncidentsGood(an, inc, ac, ev, now) && IdsIssued(an, inc, n)
    requires x in an ==> an[x].incidentId == ""
    ensures forall j | j in inc :: x !in inc[j].anomalyIds
  {
    forall j | j in inc ensures x !in inc[j].anomalyIds {
      Nonempty(an, inc, n, j);
      assert PointBack(an, inc[j]);
    }
  }

  lemma InTimeAfterUpdate(an: Anomalies, inc: Incidents, i: string, i': Incident)
    requires AllInTime(an, inc) && i in inc && i'.anomalyIds == inc[i].anomalyIds && i'.openedAt == inc[i].openedAt
    ensures AllInTime(an, inc[i := i'])
  {
    assert JoinedInTime(an, inc[i]);
  }

  lemma InTimeAfterFinding(an: Anomalies, inc: Incidents, a: Anomaly)
    requires AllInTime(an, inc) && (a.id in an ==> a.createdAt == an[a.id].createdAt)
    ensures a.id in an || (forall i | i in inc :: a.id !in inc[i].anomalyIds) ==> AllInTime(an[a.id := a], inc)
  {
    if a.id in an || forall i | i in inc :: a.id !in inc[i].anomalyIds {
      forall i | i in inc ensures JoinedInTime(an[a.id := a], inc[i]) {
        assert JoinedInTime(an, inc[i]);
      }
    }
  }

  lemma InTimeAfterMerge(an: Anomalies, inc: Incidents, i: string, i': Incident, x: string)
    requires AllInTime(an, inc) && i in inc && i'.openedAt == inc[i].openedAt
    requires inc[i].anomalyIds != [] && i'.anomalyIds == inc[i].anomalyIds + [x]
    requires x in an && inc[i].openedAt <= an[x].createdAt <= inc[i].openedAt + TEN_MINUTES
    ensures AllInTime(an, inc[i := i'])
  {
    assert JoinedInTime(an, inc[i]);
  }

  lemma InTimeAfterOpen(an: Anomalies, inc: Incidents, i: Incident, x: string)
    requires AllInTime(an, inc) && i.anomalyIds == [x] && x in an && an[x].createdAt <= i.openedAt
    ensures AllInTime(an, inc[i.id := i])
  {
  }

  // Storing a fresh anomaly that names no incident yet.
  lemma CoreAfterPutAnomaly(an: Anomalies, inc: Incidents, ac: Actions, ev: EvidenceItems, now: int, n: nat, a: Anomaly)
    requires Core(an, inc, ac, ev, now, n)
    requires a.id == NumberedId("anomaly", n + 1) && a.incidentId == ""
    ensures a.id !in an && Core(an[a.id := a], inc, ac, ev, now, n + 1)
  {
    NextIsFresh("anomaly", n, n + 1);
    IdsLater(an, inc, n, n + 1);
    UnlinkedIsUnlisted(an, inc, ac, ev, now, n, a.id);
    UnlistedChange(an, inc, ac, ev, now, a);
    PutKeepsLinks(an, inc, a);
    InTimeAfterFinding(an, inc, a);
  }

  lemma PutKeepsLinks(an: Anomalies, inc: Incidents, a: Anomaly)
    requires AnomaliesLinked(an, inc) && a.incidentId == ""
    ensures AnomaliesLinked(an[a.id := a], inc)
  {
  }

  // Merging: the anomaly is appended to an open incident of its device and signal, then linked.
  lemma CoreAfterMerge(an: Anomalies, inc: Incidents, ac: Actions, ev: EvidenceItems, now: int, n: nat, a: Anomaly, i: string)
    requires Core(an, inc, ac, ev, now, n)
    requires a.id in an && an[a.id] == a && a.incidentId == ""
    requires i in inc && inc[i].status != Closed && inc[i].deviceId == a.deviceId && SignalOf(an, inc[i]) == a.signal
    requires inc[i].openedAt <= a.createdAt <= inc[i].openedAt + TEN_MINUTES
    ensures inc[i].AddAnomaly(a.id, a.severity, now).Ok?
    ensures Core(an[a.id := a.(incidentId := i)], inc[i := inc[i].AddAnomaly(a.id, a.severity, now).value], ac, ev, now, n)
  {
    var linked := a.(incidentId := i);
    UnlinkedIsUnlisted(an, inc, ac, ev, now, n, a.id);
    UnlistedChange(an, inc, ac, ev, now, linked);
    var i' := inc[i].AddAnomaly(a.id, a.severity, now).value;
    assert i'.anomalyIds == inc[i].anomalyIds + [a.id];
    MergeKeepsIncidents(an[a.id := linked], inc, ac, ev, now, linked, i, i');
    MergeKeepsLinks(an, inc, a, i, i');
    MergeKeepsTimes(an, inc, linked, i, i');
  }

  lemma MergeKeepsTimes(an: Anomalies, inc: Incidents, a: Anomaly, i: string, i': Incident)
    requires AllInTime(an, inc) && a.id in an && a.createdAt == an[a.id].createdAt && i in inc && i'.openedAt == inc[i].openedAt
    requires inc[i].anomalyIds != [] && i'.anomalyIds == inc[i].anomalyIds + [a.id]
    requires inc[i].openedAt <= a.createdAt <= inc[i].openedAt + TEN_MINUTES
    ensures AllInTime(an[a.id := a], inc[i := i'])
  {
    InTimeAfterFinding(an, inc, a);
    InTimeAfterMerge(an[a.id := a], inc, i, i', a.id);
  }

  lemma MergeKeepsIncidents(an: Anomalies, inc: Incidents, ac: Actions, ev: EvidenceItems, now: int, a: Anomaly, i: string, i': Incident)
    requires IncidentsGood(an, inc, ac, ev, now) && Separated(an, inc)
    requires a.id in an && an[a.id] == a && a.incidentId == i
    requires i in inc && inc[i].deviceId == a.deviceId && SignalOf(an, inc[i]) == a.signal
    requires inc[i].AddAnomaly(a.id, a.severity, now) == Ok(i') && i'.anomalyIds == inc[i].anomalyIds + [a.id]
    ensures IncidentsGood(an, inc[i := i'], ac, ev, now) && Separated(an, inc[i := i'])
  {
    GoodAfterAddAnomaly(an, ac, ev, now, inc[i], a);
    MergePointsBack(an, inc[i], i', a.id);
    UpdateKeepsGood(an, inc, ac, ev, now, i, i');
    GoodImpliesLists(an, inc, ac, ev, now);
    assert inc[i := i'].Keys == inc.Keys;
    DistancesKept(an, an, inc, inc[i := i']);
  }

  lemma MergePointsBack(an: Anomalies, i: Incident, i': Incident, x: string)
    requires PointBack(an, i) && x in an && an[x].incidentId == i.id
    requires i'.id == i.id && i'.anomalyIds == i.anomalyIds + [x]
    ensures PointBack(an, i')
  {
  }

  lemma MergeKeepsLinks(an: Anomalies, inc: Incidents, a: Anomaly, i: string, i': Incident)
    requires AnomaliesLinked(an, inc) && a.id in an && an[a.id] == a
    requires i in inc && i'.anomalyIds == inc[i].anomalyIds + [a.id]
    ensures AnomaliesLinked(an[a.id := a.(incidentId := i)], inc[i := i'])
  {
    assert a.id in i'.anomalyIds && forall x | x in inc[i].anomalyIds :: x in i'.anomalyIds;
  }

  // Opening: a fresh incident for the anomaly, when no open one of its device and signal is recent.
  lemma CoreAfterOpen(an: Anomalies, inc: Incidents, ac: Actions, ev: EvidenceItems, now: int, n: nat, a: Anomaly, i: Incident, title: string, since: int)
    requires Core(an, inc, ac, ev, now, n)
    requires a.id in an && an[a.id] == a && a.incidentId == ""
    requires since <= now - TEN_MINUTES && a.createdAt <= now
    requires forall j | j in inc && inc[j].status != Closed && inc[j].deviceId == a.deviceId && SignalOf(an, inc[j]) == a.signal ::
               inc[j].openedAt < since
    requires NewIncident(NumberedId("incident", n + 1), a.deviceId, title, a.severity, a.id, now) == Ok(i)
    ensures i.id !in inc
    ensures Core(an[a.id := a.(incidentId := i.id)], inc[i.id := i], ac, ev, now, n + 1)
  {
    var linked := a.(incidentId := i.id);
    OpenKeepsIds(an, inc, n, linked, i);
    UnlinkedIsUnlisted(an, inc, ac, ev, now, n, a.id);
    UnlistedChange(an, inc, ac, ev, now, linked);
    OpenKeepsIncidents(an[a.id := linked], inc, ac, ev, now, linked, i, title, since);
    OpenKeepsLinks(an, inc, a, i);
    InTimeAfterFinding(an, inc, linked);
    InTimeAfterOpen(an[a.id := linked], inc, i, a.id);
  }

  lemma OpenKeepsIds(an: Anomalies, inc: Incidents, n: nat, a: Anomaly, i: Incident)
    requires IdsIssued(an, inc, n) && a.id in an && i.id == NumberedId("incident", n + 1)
    ensures i.id !in inc && IdsIssued(an[a.id := a], inc[i.id := i], n + 1)
  {
    NextIsFresh("incident", n, n + 1);
    IdsLater(an, inc, n, n + 1);
  }

  lemma OpenKeepsIncidents(an: Anomalies, inc: Incidents, ac: Actions, ev: EvidenceItems, now: int, a: Anomaly, i: Incident, title: string, since: int)
    requires IncidentsGood(an, inc, ac, ev, now) && Separated(an, inc)
    requires a.id in an && an[a.id] == a && a.incidentId == i.id && since <= now - TEN_MINUTES
    requires forall j | j in inc && inc[j].status != Closed && inc[j].deviceId == a.deviceId && SignalOf(an, inc[j]) == a.signal ::
               inc[j].openedAt < since
    requires NewIncident(i.id, a.deviceId, title, a.severity, a.id, now) == Ok(i)
    ensures IncidentsGood(an, inc[i.id := i], ac, ev, now) && Separated(an, inc[i.id := i])
  {
    GoodWhenNew(an, ac, ev, now, i.id, a, title);
    assert PointBack(an, i);
    UpdateKeepsGood(an, inc, ac, ev, now, i.id, i);
    OpenKeepsDistances(an, inc, i, now, since);
  }

  lemma OpenKeepsLinks(an: Anomalies, inc: Incidents, a: Anomaly, i: Incident)
    requires AnomaliesLinked(an, inc) && a.id in an && an[a.id] == a
    requires i.id !in inc && i.anomalyIds == [a.id]
    ensures AnomaliesLinked(an[a.id := a.(incidentId := i.id)], inc[i.id := i])
  {
    assert a.id in i.anomalyIds;
  }

  lemma OpenKeepsDistances(an: Anomalies, inc: Incidents, i: Incident, now: int, since: int)
    requires Separated(an, inc) && ListsFindings(an, i) && i.openedAt == now && since <= now - TEN_MINUTES
    requires forall j | j in inc && inc[j].status != Closed && Alike(an, inc[j], i) :: inc[j].openedAt < since
    ensures Separated(an, inc[i.id := i])
  {
    var inc' := inc[i.id := i];
    forall p, q | p in inc' && q in inc' && p != q && inc'[p].status != Closed && inc'[q].status != Closed && Alike(an, inc'[p], inc'[q])
      ensures FarApart(inc'[p], inc'[q])
    {
      assert p == i.id ==> Alike(an, inc[q], i);
      assert q == i.id ==> Alike(an, inc[p], i);
    }
  }
}
