/** A shooting zone on the court (ZoneDetector). It holds one configured
    score and no mutable state; each player entry raises the static zone
    event with that score. Raised events are returned as a list of payloads. */
module ZoneDetection {

  const PlayerTag := "Player"

  /** The zone events one OnTriggerEnter raises. `hasSubscribers` says whether
      anything is subscribed to OnPlayerEnterZone (the `?.Invoke` guard). */
  function OnTriggerEnter(zoneScore: int, otherTag: string, hasSubscribers: bool): (raised: seq<int>)
    ensures |raised| <= 1
    ensures raised != [] <==> otherTag == PlayerTag && hasSubscribers
    ensures forall v :: v in raised ==> v == zoneScore
  {
    if otherTag == PlayerTag && hasSubscribers then [zoneScore] else []
  }

  /** The zone events raised by a series of entries, in order. */
  function RaisedBy(zoneScore: int, otherTags: seq<string>, hasSubscribers: bool): seq<int>
  {
    if otherTags == [] then []
    else
      var n := |otherTags| - 1;
      RaisedBy(zoneScore, otherTags[..n], hasSubscribers) + OnTriggerEnter(zoneScore, otherTags[n], hasSubscribers)
  }

  function CountTag(tags: seq<string>, tag: string): nat
  {
    if tags == [] then 0
    else CountTag(tags[..|tags| - 1], tag) + (if tags[|tags| - 1] == tag then 1 else 0)
  }

  /** Because the detector keeps no state, every qualifying entry raises one
      event carrying the same configured score, and nothing else raises one. */
  lemma {:induction false} EachPlayerEntryRaisesZoneScore(zoneScore: int, otherTags: seq<string>, hasSubscribers: bool)
    ensures forall v :: v in RaisedBy(zoneScore, otherTags, hasSubscribers) ==> v == zoneScore
    ensures |RaisedBy(zoneScore, otherTags, hasSubscribers)| ==
      (if hasSubscribers then CountTag(otherTags, PlayerTag) else 0)
  {
    if otherTags != [] {
      EachPlayerEntryRaisesZoneScore(zoneScore, otherTags[..|otherTags| - 1], hasSubscribers);
    }
  }
}
