/** SteamParseClanEvents (me.theforbiddenai tree): the clan-event tier of the Steam
    expiration lookup. The event details request is a parameter of the creation; the
    Jackson parse of an event's `jsondata` text is the `SectionReader` parameter. */
module ClanEvents {
  import opened Common
  import opened Strings
  import opened Domain

  /** A capsule of a sale section: its `id` and `type` text. */
  datatype Capsule = Capsule(id: string, capsuleType: string)

  /** A sale section; `capsules` is None when it has no `capsules` node. */
  datatype SaleSection = SaleSection(capsules: Option<seq<Capsule>>)

  /** An element of the events node. `endTime` is None without `rtime32_end_time`,
      Some(None) when `asLong` cannot read it as a number, Some(Some(v)) otherwise;
      `jsonData` is None without `jsondata`. */
  datatype EventNode = EventNode(endTime: Option<Option<int>>, eventName: string, jsonData: Option<string>)

  /** `readTree(jsonData).get("sale_sections")`, iterated: None where the text is not
      JSON or has no `sale_sections` (iterating null throws). */
  type SectionReader = string -> Option<seq<SaleSection>>

  /** The three id sets of a SteamClanEvent. */
  datatype IncludedIds = IncludedIds(apps: set<string>, packages: set<string>, bundles: set<string>)

  const NoIds := IncludedIds({}, {}, {})

  /** The set a lookup consults. */
  datatype IdKind = App | Package | Bundle

  function Ids(ids: IncludedIds, kind: IdKind): set<string> {
    match kind case App => ids.apps case Package => ids.packages case Bundle => ids.bundles
  }

  /** `rtime32_end_time` read with `asLong(-1)`, -1 when missing. */
  function EndEpoch(node: EventNode): (r: int)
    ensures node.endTime.Some? && node.endTime.value.Some? ==> r == node.endTime.value.value
    ensures node.endTime.None? || node.endTime.value.None? ==> r == NoExpirationEpoch
  {
    match node.endTime
    case None => NoExpirationEpoch
    case Some(field) => match field case None => NoExpirationEpoch case Some(v) => v
  }

  // ---------------------------------------------------------------------------
  // parseJsonData

  /** The switch on the lower-cased capsule type. */
  function CapsuleKind(c: Capsule): (k: Option<IdKind>)
    ensures k == Some(App) <==> ToLower(c.capsuleType) == "game" || ToLower(c.capsuleType) == "dlc"
    ensures k == Some(Package) <==> ToLower(c.capsuleType) == "sub"
    ensures k == Some(Bundle) <==> ToLower(c.capsuleType) == "bundle"
  {
    var capsuleType := ToLower(c.capsuleType);
    if capsuleType == "game" || capsuleType == "dlc" then Some(App)
    else if capsuleType == "sub" then Some(Package)
    else if capsuleType == "bundle" then Some(Bundle)
    else None
  }

  /** One capsule sorted into its set; other types are ignored. */
  function SortCapsule(ids: IncludedIds, c: Capsule): IncludedIds {
    match CapsuleKind(c)
    case None => ids
    case Some(App) => ids.(apps := ids.apps + {c.id})
    case Some(Package) => ids.(packages := ids.packages + {c.id})
    case Some(Bundle) => ids.(bundles := ids.bundles + {c.id})
  }

  /** The inner loop over a section's capsules. */
  function SortCapsules(ids: IncludedIds, capsules: seq<Capsule>): IncludedIds
    decreases |capsules|
  {
    if capsules == [] then ids
    else SortCapsule(SortCapsules(ids, capsules[..|capsules| - 1]), capsules[|capsules| - 1])
  }

  /** The outer loop over the sale sections; sections without capsules are skipped. */
  function SortSections(ids: IncludedIds, sections: seq<SaleSection>): IncludedIds
    decreases |sections|
  {
    if sections == [] then ids
    else
      var before := SortSections(ids, sections[..|sections| - 1]);
      match sections[|sections| - 1].capsules
      case None => before
      case Some(capsules) => SortCapsules(before, capsules)
  }

  /** The `jsondata` text, "null" when the field is missing. */
  function JsonDataText(node: EventNode): string {
    match node.jsonData case None => "null" case Some(text) => text
  }

  /** `parseJsonData`: no ids for a missing or "null" (in any case) `jsondata`;
      otherwise the capsules of the parsed sections, sorted by type. */
  function JsonDataIds(node: EventNode, readSections: SectionReader): Result<IncludedIds> {
    var jsonData := JsonDataText(node);
    if EqualsIgnoreCase(jsonData, "null") then Ok(NoIds)
    else
      match readSections(jsonData)
      case None => Err("Unable to parse jsondata " + jsonData)
      case Some(sections) => Ok(SortSections(NoIds, sections))
  }

  /** Every capsule of every section that has capsules, in order. */
  function AllCapsules(sections: seq<SaleSection>): seq<Capsule>
    decreases |sections|
  {
    if sections == [] then []
    else
      AllCapsules(sections[..|sections| - 1])
      + match sections[|sections| - 1].capsules case None => [] case Some(capsules) => capsules
  }

  lemma {:induction false} SortCapsulesAppend(ids: IncludedIds, a: seq<Capsule>, b: seq<Capsule>)
    ensures SortCapsules(ids, a + b) == SortCapsules(SortCapsules(ids, a), b)
    decreases |b|
  {
    if b == [] {
      assert a + b == a;
    } else {
      SortCapsulesAppend(ids, a, b[..|b| - 1]);
      assert (a + b)[..|a + b| - 1] == a + b[..|b| - 1];
    }
  }

  /** The nested loops sort the capsules of all sections as one list. */
  lemma {:induction false} SortSectionsIsFlatSort(ids: IncludedIds, sections: seq<SaleSection>)
    ensures SortSections(ids, sections) == SortCapsules(ids, AllCapsules(sections))
    decreases |sections|
  {
    if sections != [] {
      var init := sections[..|sections| - 1];
      SortSectionsIsFlatSort(ids, init);
      var last := match sections[|sections| - 1].capsules case None => [] case Some(capsules) => capsules;
      SortCapsulesAppend(ids, AllCapsules(init), last);
      if sections[|sections| - 1].capsules.None? {
        assert AllCapsules(init) + last == AllCapsules(init);
      }
    }
  }

  /** An id lands in a set exactly when it was there already or some capsule of that
      kind carries it. */
  lemma {:induction false} SortCapsulesMembers(ids: IncludedIds, capsules: seq<Capsule>, kind: IdKind, id: string)
    ensures id in Ids(SortCapsules(ids, capsules), kind)
      <==> id in Ids(ids, kind)
           || exists j :: 0 <= j < |capsules| && capsules[j].id == id && CapsuleKind(capsules[j]) == Some(kind)
    decreases |capsules|
  {
    if capsules != [] {
      var init := capsules[..|capsules| - 1];
      SortCapsulesMembers(ids, init, kind, id);
      assert forall j :: 0 <= j < |init| ==> init[j] == capsules[j];
      if exists j :: 0 <= j < |capsules| && capsules[j].id == id && CapsuleKind(capsules[j]) == Some(kind) {
        var j :| 0 <= j < |capsules| && capsules[j].id == id && CapsuleKind(capsules[j]) == Some(kind);
        if j < |init| {
          assert init[j] == capsules[j];
        }
      }
    }
  }

  /** The ids of an event: a capsule's id is in the app, package or bundle set exactly
      when its lower-cased type says so. */
  lemma JsonDataIdsMembers(node: EventNode, readSections: SectionReader, kind: IdKind, id: string)
    ensures EqualsIgnoreCase(JsonDataText(node), "null") ==> JsonDataIds(node, readSections) == Ok(NoIds)
    ensures JsonDataIds(node, readSections).Err?
      <==> !EqualsIgnoreCase(JsonDataText(node), "null") && readSections(JsonDataText(node)).None?
    ensures JsonDataIds(node, readSections).Ok? && !EqualsIgnoreCase(JsonDataText(node), "null")
      ==> var capsules := AllCapsules(readSections(JsonDataText(node)).value);
          (id in Ids(JsonDataIds(node, readSections).value, kind)
           <==> exists j :: 0 <= j < |capsules| && capsules[j].id == id && CapsuleKind(capsules[j]) == Some(kind))
  {
    var jsonData := JsonDataText(node);
    if !EqualsIgnoreCase(jsonData, "null") && readSections(jsonData).Some? {
      SortSectionsIsFlatSort(NoIds, readSections(jsonData).value);
      SortCapsulesMembers(NoIds, AllCapsules(readSections(jsonData).value), kind, id);
    }
  }

  /** A missing `jsondata` is read as "null" and gives no ids. */
  lemma MissingJsonDataNoIds(node: EventNode, readSections: SectionReader)
    requires node.jsonData.None?
    ensures JsonDataIds(node, readSections) == Ok(NoIds)
  {
    assert ToLower("null") == "null";
  }

  /** The inner step of `parseJsonData`. */
  method SortCapsuleStep(ids: IncludedIds, c: Capsule) returns (r: IncludedIds)
    ensures r == SortCapsule(ids, c)
  {
    var capsuleId := c.id;
    var capsuleType := ToLower(c.capsuleType);
    r := ids;
    if capsuleType == "game" || capsuleType == "dlc" {
      r := r.(apps := r.apps + {capsuleId});
    } else if capsuleType == "sub" {
      r := r.(packages := r.packages + {capsuleId});
    } else if capsuleType == "bundle" {
      r := r.(bundles := r.bundles + {capsuleId});
    }
  }

  /** `parseJsonData`: nested loops filling the three sets. */
  method ParseJsonData(node: EventNode, readSections: SectionReader) returns (r: Result<IncludedIds>)
    ensures r == JsonDataIds(node, readSections)
  {
    var jsonData := JsonDataText(node);
    if EqualsIgnoreCase(jsonData, "null") {
      return Ok(IncludedIds({}, {}, {}));
    }
    var salesNode := readSections(jsonData);
    if salesNode.None? {
      return Err("Unable to parse jsondata " + jsonData);
    }
    var sections := salesNode.value;
    var ids := NoIds;
    var i := 0;
    while i < |sections|
      invariant 0 <= i <= |sections|
      invariant ids == SortSections(NoIds, sections[..i])
    {
      assert sections[..i + 1][..i] == sections[..i];
      var capsulesNode := sections[i].capsules;
      if capsulesNode.Some? {
        var capsules := capsulesNode.value;
        ghost var before := ids;
        var j := 0;
        while j < |capsules|
          invariant 0 <= j <= |capsules|
          invariant ids == SortCapsules(before, capsules[..j])
        {
          assert capsules[..j + 1][..j] == capsules[..j];
          ids := SortCapsuleStep(ids, capsules[j]);
          j := j + 1;
        }
        assert capsules[..j] == capsules;
      }
      i := i + 1;
    }
    assert sections[..i] == sections;
    return Ok(ids);
  }

  // ---------------------------------------------------------------------------
  // parseEvents

  /** The events built so far, and the exception that stopped the loop, if any. */
  datatype Parsed = Parsed(events: seq<ClanEvent>, error: Option<string>)

  /** One pass of the loop: with `mustHaveEndEpoch` an event without a positive end
      epoch is skipped; otherwise it is built, or its `jsondata` stops the loop. */
  function ParseStep(p: Parsed, node: EventNode, mustHaveEndEpoch: bool, readSections: SectionReader): Parsed {
    if p.error.Some? then p
    else
      var endEpoch := EndEpoch(node);
      if mustHaveEndEpoch && endEpoch <= 0 then p
      else
        match JsonDataIds(node, readSections)
        case Err(e) => Parsed(p.events, Some(e))
        case Ok(ids) => Parsed(p.events + [ClanEvent(node.eventName, endEpoch, ids.apps, ids.packages, ids.bundles)], None)
  }

  /** The loop over the event nodes, in order. */
  function ParsedEvents(nodes: seq<EventNode>, mustHaveEndEpoch: bool, readSections: SectionReader): Parsed
    decreases |nodes|
  {
    if nodes == [] then Parsed([], None)
    else ParseStep(ParsedEvents(nodes[..|nodes| - 1], mustHaveEndEpoch, readSections), nodes[|nodes| - 1],
                   mustHaveEndEpoch, readSections)
  }

  lemma ParsedPrefix(nodes: seq<EventNode>, i: nat, mustHaveEndEpoch: bool, readSections: SectionReader)
    requires i < |nodes|
    ensures ParsedEvents(nodes[..i + 1], mustHaveEndEpoch, readSections)
            == ParseStep(ParsedEvents(nodes[..i], mustHaveEndEpoch, readSections), nodes[i], mustHaveEndEpoch, readSections)
  {
    assert nodes[..i + 1][..i] == nodes[..i];
  }

  lemma ParsedWhole(nodes: seq<EventNode>, mustHaveEndEpoch: bool, readSections: SectionReader)
    ensures ParsedEvents(nodes[..|nodes|], mustHaveEndEpoch, readSections) == ParsedEvents(nodes, mustHaveEndEpoch, readSections)
  {
    assert nodes[..|nodes|] == nodes;
  }

  /** Once an exception is thrown, no later node is read. */
  lemma {:induction false} ParsedErrorStops(nodes: seq<EventNode>, k: nat, n: nat, mustHaveEndEpoch: bool,
                                            readSections: SectionReader)
    requires k <= n <= |nodes|
    requires ParsedEvents(nodes[..k], mustHaveEndEpoch, readSections).error.Some?
    ensures ParsedEvents(nodes[..n], mustHaveEndEpoch, readSections) == ParsedEvents(nodes[..k], mustHaveEndEpoch, readSections)
    decreases n - k
  {
    if k < n {
      ParsedErrorStops(nodes, k, n - 1, mustHaveEndEpoch, readSections);
      ParsedPrefix(nodes, n - 1, mustHaveEndEpoch, readSections);
    }
  }

  /** Parsing two runs of nodes one after the other gives the first run's events
      followed by the second's, unless the first run threw. */
  lemma {:induction false} ParsedEventsAppend(a: seq<EventNode>, b: seq<EventNode>, mustHaveEndEpoch: bool,
                                              readSections: SectionReader)
    ensures var pa := ParsedEvents(a, mustHaveEndEpoch, readSections);
            var pb := ParsedEvents(b, mustHaveEndEpoch, readSections);
            ParsedEvents(a + b, mustHaveEndEpoch, readSections)
            == if pa.error.Some? then pa else Parsed(pa.events + pb.events, pb.error)
    decreases |b|
  {
    if b == [] {
      assert a + b == a;
    } else {
      var init := b[..|b| - 1];
      ParsedEventsAppend(a, init, mustHaveEndEpoch, readSections);
      assert (a + b)[..|a + b| - 1] == a + init;
    }
  }

  /** The event carries the name and end epoch of one of the nodes. */
  predicate BuiltFrom(e: ClanEvent, nodes: seq<EventNode>) {
    exists i :: 0 <= i < |nodes| && nodes[i].eventName == e.name && EndEpoch(nodes[i]) == e.endEpoch
  }

  /** Every event built has the name and end epoch of a node; with
      `mustHaveEndEpoch`, every end epoch is positive. There are never more events
      than nodes. */
  lemma {:induction false} ParsedEventsKept(nodes: seq<EventNode>, mustHaveEndEpoch: bool, readSections: SectionReader)
    ensures |ParsedEvents(nodes, mustHaveEndEpoch, readSections).events| <= |nodes|
    ensures mustHaveEndEpoch
      ==> forall e :: e in ParsedEvents(nodes, mustHaveEndEpoch, readSections).events ==> e.endEpoch > 0
    ensures forall e :: e in ParsedEvents(nodes, mustHaveEndEpoch, readSections).events ==> BuiltFrom(e, nodes)
    decreases |nodes|
  {
    if nodes != [] {
      var init := nodes[..|nodes| - 1];
      ParsedEventsKept(init, mustHaveEndEpoch, readSections);
      forall e | e in ParsedEvents(nodes, mustHaveEndEpoch, readSections).events
        ensures BuiltFrom(e, nodes)
      {
        if e in ParsedEvents(init, mustHaveEndEpoch, readSections).events {
          var i :| 0 <= i < |init| && init[i].eventName == e.name && EndEpoch(init[i]) == e.endEpoch;
          assert nodes[i] == init[i];
        } else {
          assert nodes[|nodes| - 1].eventName == e.name;
        }
      }
    }
  }

  /** A node without `rtime32_end_time` is never built when an end epoch is
      required. */
  lemma MissingEndTimeSkipped(p: Parsed, node: EventNode, readSections: SectionReader)
    requires node.endTime.None?
    ensures ParseStep(p, node, true, readSections) == p
  {
  }

  // ---------------------------------------------------------------------------
  // lookups

  /** The first event, in list order, whose set of the given kind holds the id and
      whose end epoch is after `now`; the sentinel when there is none. */
  function EventEndTime(events: seq<ClanEvent>, kind: IdKind, id: string, now: int): int
    decreases |events|
  {
    if events == [] then NoExpirationEpoch
    else if id in Included(events[0], kind) && events[0].endEpoch > now then events[0].endEpoch
    else EventEndTime(events[1..], kind, id, now)
  }

  function Included(e: ClanEvent, kind: IdKind): set<string> {
    match kind case App => e.includedApps case Package => e.includedPackages case Bundle => e.includedBundles
  }

  predicate Matches(e: ClanEvent, kind: IdKind, id: string, now: int) {
    id in Included(e, kind) && e.endEpoch > now
  }

  /** The answer is the sentinel or the end epoch of the first matching event; for a
      non-negative `now`, the sentinel means that no event matches. */
  lemma {:induction false} EventEndTimeIsFirstMatch(events: seq<ClanEvent>, kind: IdKind, id: string, now: int)
    ensures var r := EventEndTime(events, kind, id, now);
            r == NoExpirationEpoch
            || exists k :: 0 <= k < |events| && Matches(events[k], kind, id, now) && events[k].endEpoch == r
                           && forall j :: 0 <= j < k ==> !Matches(events[j], kind, id, now)
    ensures EventEndTime(events, kind, id, now) == NoExpirationEpoch || EventEndTime(events, kind, id, now) > now
    ensures now >= 0
      ==> (EventEndTime(events, kind, id, now) == NoExpirationEpoch
           <==> forall j :: 0 <= j < |events| ==> !Matches(events[j], kind, id, now))
    decreases |events|
  {
    if events != [] && !Matches(events[0], kind, id, now) {
      var tail := events[1..];
      EventEndTimeIsFirstMatch(tail, kind, id, now);
      assert forall j :: 1 <= j < |events| ==> events[j] == tail[j - 1];
      var r := EventEndTime(tail, kind, id, now);
      if r != NoExpirationEpoch {
        var k :| 0 <= k < |tail| && Matches(tail[k], kind, id, now) && tail[k].endEpoch == r
                 && forall j :: 0 <= j < k ==> !Matches(tail[j], kind, id, now);
        assert events[k + 1] == tail[k];
      }
    } else if events != [] {
      assert Matches(events[0], kind, id, now);
    }
  }

  /** The end epochs are `rtime32_end_time` values, in seconds, and `now` is
      `System.currentTimeMillis()`: every end epoch before the year 2286 in seconds is
      below any time in milliseconds after April 1970, so such lookups give the
      sentinel. */
  lemma {:induction false} SecondsNeverAfterMillis(events: seq<ClanEvent>, kind: IdKind, id: string, now: int)
    requires forall j :: 0 <= j < |events| ==> events[j].endEpoch < 10_000_000_000
    requires now >= 10_000_000_000
    ensures EventEndTime(events, kind, id, now) == NoExpirationEpoch
    decreases |events|
  {
    if events != [] {
      SecondsNeverAfterMillis(events[1..], kind, id, now);
    }
  }

  // ---------------------------------------------------------------------------
  // the class

  class SteamParseClanEvents {
    const clanId: string
    const eventsNode: seq<EventNode>
    var events: seq<ClanEvent>

    /** The constructor once the event details are known: no events yet. */
    constructor(clanId: string, eventsNode: seq<EventNode>)
      ensures this.clanId == clanId && this.eventsNode == eventsNode && events == []
    {
      this.clanId := clanId;
      this.eventsNode := eventsNode;
      events := [];
    }

    /** `parseEvents`: appends the parsed events to `events`, which is never cleared,
        so a second call appends again. A `jsondata` that cannot be read throws after
        the events before it were added. */
    method ParseEvents(mustHaveEndEpoch: bool, readSections: SectionReader) returns (error: Option<string>)
      modifies this
      ensures events == old(events) + ParsedEvents(eventsNode, mustHaveEndEpoch, readSections).events
      ensures error == ParsedEvents(eventsNode, mustHaveEndEpoch, readSections).error
    {
      ghost var start := events;
      var i := 0;
      while i < |eventsNode|
        invariant 0 <= i <= |eventsNode|
        invariant events == start + ParsedEvents(eventsNode[..i], mustHaveEndEpoch, readSections).events
        invariant ParsedEvents(eventsNode[..i], mustHaveEndEpoch, readSections).error.None?
      {
        ParsedPrefix(eventsNode, i, mustHaveEndEpoch, readSections);
        var eventNode := eventsNode[i];
        i := i + 1;
        var endEpoch := EndEpoch(eventNode);
        if mustHaveEndEpoch && endEpoch <= 0 {
          continue;
        }
        var ids := ParseJsonData(eventNode, readSections);
        if ids.Err? {
          ParsedErrorStops(eventsNode, i, |eventsNode|, mustHaveEndEpoch, readSections);
          ParsedWhole(eventsNode, mustHaveEndEpoch, readSections);
          return Some(ids.reason);
        }
        events := events + [ClanEvent(eventNode.eventName, endEpoch, ids.value.apps, ids.value.packages,
                                      ids.value.bundles)];
      }
      ParsedWhole(eventsNode, mustHaveEndEpoch, readSections);
      return None;
    }

    /** The lookup loop shared by the three getters. */
    method FindEndTime(kind: IdKind, id: string, now: int) returns (r: int)
      ensures r == EventEndTime(events, kind, id, now)
    {
      var i := 0;
      while i < |events|
        invariant 0 <= i <= |events|
        invariant EventEndTime(events, kind, id, now) == EventEndTime(events[i..], kind, id, now)
      {
        assert events[i..][1..] == events[i + 1..];
        var event := events[i];
        if id in Included(event, kind) {
          if event.endEpoch > now {
            return event.endEpoch;
          }
        }
        i := i + 1;
      }
      return NoExpirationEpoch;
    }

    /** `getEventEndTimeByAppId`; `now` is `System.currentTimeMillis()`. */
    method GetEventEndTimeByAppId(appId: string, now: int) returns (r: int)
      ensures r == EventEndTime(events, App, appId, now)
    {
      r := FindEndTime(App, appId, now);
    }

    /** `getEventEndTimeByPackageId`. */
    method GetEventEndTimeByPackageId(packageId: string, now: int) returns (r: int)
      ensures r == EventEndTime(events, Package, packageId, now)
    {
      r := FindEndTime(Package, packageId, now);
    }

    /** `getEventEndTimeByBundleId`. */
    method GetEventEndTimeByBundleId(bundleId: string, now: int) returns (r: int)
      ensures r == EventEndTime(events, Bundle, bundleId, now)
    {
      r := FindEndTime(Bundle, bundleId, now);
    }
  }

  /** The constructor: the IOException of the event details request propagates
      unwrapped; it throws GameRetrievalException when the request finds nothing, and
      otherwise starts with no events. */
  method NewSteamParseClanEvents(clanId: string, eventDetails: Response<seq<EventNode>>)
    returns (r: Result<SteamParseClanEvents>)
    ensures r.Err? <==> eventDetails.Err? || eventDetails.value.None?
    ensures eventDetails.Err? ==> r == Err(eventDetails.reason)
    ensures eventDetails == Ok(None) ==> r == Err("Unable to retrieve event details for steam clan id: " + clanId)
    ensures r.Ok? ==> fresh(r.value) && r.value.clanId == clanId && r.value.eventsNode == eventDetails.value.value
                      && r.value.events == []
  {
    if eventDetails.Err? {
      return Err(eventDetails.reason);
    }
    if eventDetails.value.None? {
      return Err("Unable to retrieve event details for steam clan id: " + clanId);
    }
    var parser := new SteamParseClanEvents(clanId, eventDetails.value.value);
    return Ok(parser);
  }
}
