/**
 * UserProfileMapper: the conversions between a profile's skill and interest
 * rows and the plain string lists of requests and responses.
 */
module ProfileMapper {
  import opened Domain

  /**
   * A UserSkill or UserInterest row: the owning profile (identified by its
   * user, as profiles are one per user) and the skill or interest text. The
   * two entities have the same shape and the mapper treats them alike.
   */
  datatype ProfileEntry = ProfileEntry(profile: UserId, value: string)

  /**
   * mapSkillsToList / mapInterestsToList: a null list gives the empty list;
   * otherwise the texts of the rows, in order.
   */
  function EntryValues(entries: Option<seq<ProfileEntry>>): (values: seq<string>)
    ensures entries.None? ==> values == []
    ensures entries.Some? ==> |values| == |entries.value|
    ensures entries.Some? ==> forall i :: 0 <= i < |values| ==> values[i] == entries.value[i].value
  {
    match entries
    case None => []
    case Some(es) => seq(|es|, i requires 0 <= i < |es| => es[i].value)
  }

  /**
   * mapToUserSkills / mapToUserInterests: a null list gives the empty list;
   * otherwise one new row per text, in order, each pointing back to the
   * profile.
   */
  function EntriesFor(values: Option<seq<string>>, profile: UserId): (entries: seq<ProfileEntry>)
    ensures values.None? ==> entries == []
    ensures values.Some? ==> |entries| == |values.value|
    ensures values.Some? ==> forall i :: 0 <= i < |entries| ==> entries[i].value == values.value[i]
    ensures forall i :: 0 <= i < |entries| ==> entries[i].profile == profile
  {
    match values
    case None => []
    case Some(vs) => seq(|vs|, i requires 0 <= i < |vs| => ProfileEntry(profile, vs[i]))
  }

  /** Rows built from a list give that list back. */
  lemma ValuesOfEntriesRoundTrip(values: seq<string>, profile: UserId)
    ensures EntryValues(Some(EntriesFor(Some(values), profile))) == values
  {
  }

  /**
   * The other direction: rows that all point to the profile are rebuilt
   * from their texts exactly.
   */
  lemma EntriesOfValuesRoundTrip(entries: seq<ProfileEntry>, profile: UserId)
    requires forall i :: 0 <= i < |entries| ==> entries[i].profile == profile
    ensures EntriesFor(Some(EntryValues(Some(entries))), profile) == entries
  {
  }
}
