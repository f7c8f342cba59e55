/**
 * The testimony schema: the rules of each path, the document that assigning
 * a submission produces (trimmed, with its defaults), the set of paths that
 * fail validation, and creation, which stores the document only when no path
 * fails.
 */
module TestimonySchema {
  import opened Wrappers
  import opened JsString
  import opened SchemaRules

  /** A point in time, as the store keeps `createdAt`. */
  type Timestamp = int

  datatype Field =
    | Name | WhenWeeks | WhenWeeksNoticed | PhysicalPain | MentalPain | Hospital
    | PeriodVolume | PeriodLength | PeriodPain | Story | CreatedAt | Post

  /** A submission: each path may be given or left out. */
  datatype RawTestimony = RawTestimony(
    name: Option<string>,
    whenWeeks: Option<int>,
    whenWeeksNoticed: Option<int>,
    physicalPain: Option<string>,
    mentalPain: Option<string>,
    hospital: Option<bool>,
    periodVolume: Option<string>,
    periodLength: Option<string>,
    periodPain: Option<bool>,
    story: Option<string>,
    createdAt: Option<Timestamp>,
    post: Option<string>)

  /** A document: the paths with a default always hold a value. */
  datatype Testimony = Testimony(
    name: string,
    whenWeeks: Option<int>,
    whenWeeksNoticed: Option<int>,
    physicalPain: Option<string>,
    mentalPain: Option<string>,
    hospital: Option<bool>,
    periodVolume: Option<string>,
    periodLength: Option<string>,
    periodPain: Option<bool>,
    story: Option<string>,
    createdAt: Timestamp,
    post: string)

  const MaxNameLength: nat := 30
  const DefaultName: string := "Anonymous"
  const DefaultPost: string := "pending"

  const PainLevels: set<string> := {"Painless", "Painful", "Severe Pain"}
  const VolumeChanges: set<string> := {"Increased", "Decreased", "Unchanged"}
  const LengthChanges: set<string> := {"Additional days", "Fewer days", "Unchanged"}
  /** The moderation states, spelled as the schema spells them. */
  const PostStates: set<string> := {"pending", "approved", "decline"}

  function EnumRule(values: set<string>): StringRule {
    StringRule(required := false, trim := false, maxLength := None, allowed := Some(values), default := None)
  }

  const NameRule := StringRule(required := false, trim := true, maxLength := Some(MaxNameLength),
                               allowed := None, default := Some(DefaultName))
  const WhenWeeksRule := NumberRule(required := true, min := 5, max := 20)
  const WhenWeeksNoticedRule := NumberRule(required := false, min := 5, max := 25)
  const PhysicalPainRule := EnumRule(PainLevels)
  const MentalPainRule := EnumRule(PainLevels)
  const PeriodVolumeRule := EnumRule(VolumeChanges)
  const PeriodLengthRule := EnumRule(LengthChanges)
  const StoryRule := StringRule(required := false, trim := true, maxLength := None, allowed := None, default := None)
  const PostRule := StringRule(required := false, trim := false, maxLength := None,
                               allowed := Some(PostStates), default := Some(DefaultPost))

  /** The document `new Testimony(raw)` builds; `now` is the clock reading
      the `createdAt` default takes. Given strings of the trimmed paths are
      trimmed, and the paths with a default take it when left out. */
  function Normalise(raw: RawTestimony, now: Timestamp): (t: Testimony)
    ensures t.name == (if raw.name.Some? then Trim(raw.name.value) else "Anonymous")
    ensures t.story == raw.story.MapValue(Trim)
    ensures t.post == raw.post.GetOr("pending")
    ensures t.createdAt == raw.createdAt.GetOr(now)
    ensures && t.whenWeeks == raw.whenWeeks && t.whenWeeksNoticed == raw.whenWeeksNoticed
            && t.physicalPain == raw.physicalPain && t.mentalPain == raw.mentalPain
            && t.periodVolume == raw.periodVolume && t.periodLength == raw.periodLength
            && t.hospital == raw.hospital && t.periodPain == raw.periodPain
  {
    Testimony(
      name := CastString(NameRule, raw.name).value,
      whenWeeks := raw.whenWeeks,
      whenWeeksNoticed := raw.whenWeeksNoticed,
      physicalPain := CastString(PhysicalPainRule, raw.physicalPain),
      mentalPain := CastString(MentalPainRule, raw.mentalPain),
      hospital := raw.hospital,
      periodVolume := CastString(PeriodVolumeRule, raw.periodVolume),
      periodLength := CastString(PeriodLengthRule, raw.periodLength),
      periodPain := raw.periodPain,
      story := CastString(StoryRule, raw.story),
      createdAt := raw.createdAt.GetOr(now),
      post := CastString(PostRule, raw.post).value)
  }

  /** Whether path `f` of `t` passes its validators. */
  predicate PathValid(t: Testimony, f: Field) {
    match f
    case Name => StringValid(NameRule, Some(t.name))
    case WhenWeeks => NumberValid(WhenWeeksRule, t.whenWeeks)
    case WhenWeeksNoticed => NumberValid(WhenWeeksNoticedRule, t.whenWeeksNoticed)
    case PhysicalPain => StringValid(PhysicalPainRule, t.physicalPain)
    case MentalPain => StringValid(MentalPainRule, t.mentalPain)
    case PeriodVolume => StringValid(PeriodVolumeRule, t.periodVolume)
    case PeriodLength => StringValid(PeriodLengthRule, t.periodLength)
    case Story => StringValid(StoryRule, t.story)
    case Post => StringValid(PostRule, Some(t.post))
    case Hospital | PeriodPain | CreatedAt => true
  }

  /** The paths of `t` whose validators fail. */
  function Faults(t: Testimony): (r: set<Field>)
    ensures WhenWeeks in r <==> t.whenWeeks.None? || !(5 <= t.whenWeeks.value <= 20)
    ensures WhenWeeksNoticed in r <==> t.whenWeeksNoticed.Some? && !(5 <= t.whenWeeksNoticed.value <= 25)
    ensures Name in r <==> Utf16Length(t.name) > 30
    // story has no length limit; the boolean paths and createdAt have no validators
    ensures Story !in r && Hospital !in r && PeriodPain !in r && CreatedAt !in r
  {
    set f: Field | !PathValid(t, f)
  }

  /** The paths restricted to a fixed list of values fail exactly on a value
      outside the list; a left-out optional one passes. */
  lemma RestrictedPathFaults(t: Testimony)
    ensures PhysicalPain in Faults(t) <==> t.physicalPain.Some? && t.physicalPain.value !in PainLevels
    ensures MentalPain in Faults(t) <==> t.mentalPain.Some? && t.mentalPain.value !in PainLevels
    ensures PeriodVolume in Faults(t) <==> t.periodVolume.Some? && t.periodVolume.value !in VolumeChanges
    ensures PeriodLength in Faults(t) <==> t.periodLength.Some? && t.periodLength.value !in LengthChanges
    ensures Post in Faults(t) <==> t.post !in PostStates
  {
  }

  /** What every stored testimony satisfies. */
  predicate ValidTestimony(t: Testimony) {
    && Trimmed(t.name) && Utf16Length(t.name) <= MaxNameLength
    && t.whenWeeks.Some? && 5 <= t.whenWeeks.value <= 20
    && (t.whenWeeksNoticed.Some? ==> 5 <= t.whenWeeksNoticed.value <= 25)
    && (t.physicalPain.Some? ==> t.physicalPain.value in PainLevels)
    && (t.mentalPain.Some? ==> t.mentalPain.value in PainLevels)
    && (t.periodVolume.Some? ==> t.periodVolume.value in VolumeChanges)
    && (t.periodLength.Some? ==> t.periodLength.value in LengthChanges)
    && (t.story.Some? ==> Trimmed(t.story.value))
    && t.post in PostStates
  }

  /** The paths a failed creation names; none for a stored document. */
  function Rejected(r: Result<Testimony, set<Field>>): set<Field> {
    if r.Err? then r.error else {}
  }

  /** Creating a testimony: the normalised document is stored exactly when no
      path fails, and otherwise every failing path is named. Whatever is
      stored satisfies the schema invariant, and a submission without a
      `when_weeks` in 5..20 is rejected on that path. */
  function Create(raw: RawTestimony, now: Timestamp): (r: Result<Testimony, set<Field>>)
    ensures r.Ok? <==> Faults(Normalise(raw, now)) == {}
    ensures r.Ok? ==> r.value == Normalise(raw, now) && ValidTestimony(r.value)
    ensures r.Err? ==> r.error == Faults(Normalise(raw, now)) && r.error != {}
    ensures r.Err? && WhenWeeks in r.error <==> raw.whenWeeks.None? || !(5 <= raw.whenWeeks.value <= 20)
  {
    var t := Normalise(raw, now);
    var faults := Faults(t);
    if faults == {} then PassingIsValid(raw, now); Ok(t) else Err(faults)
  }

  // ----- What the schema promises about creation, field by field -----

  /** A failed creation names exactly the failing paths of the normalised document. */
  lemma RejectedAreFaults(raw: RawTestimony, now: Timestamp, f: Field)
    ensures f in Rejected(Create(raw, now)) <==> f in Faults(Normalise(raw, now))
  {
  }

  lemma WhenWeeksRequiredInRange(raw: RawTestimony, now: Timestamp)
    ensures WhenWeeks in Rejected(Create(raw, now)) <==>
              raw.whenWeeks.None? || !(5 <= raw.whenWeeks.value <= 20)
    ensures Create(raw, now).Ok? ==> raw.whenWeeks.Some? && 5 <= raw.whenWeeks.value <= 20
  {
  }

  lemma WhenWeeksNoticedOptionalInRange(raw: RawTestimony, now: Timestamp)
    ensures WhenWeeksNoticed in Rejected(Create(raw, now)) <==>
              raw.whenWeeksNoticed.Some? && !(5 <= raw.whenWeeksNoticed.value <= 25)
  {
  }

  /** A left-out name becomes "Anonymous", which always fits; a given name is
      trimmed, and rejected when the trimmed name is over 30 code units. */
  lemma NameTrimmedDefaultedBounded(raw: RawTestimony, now: Timestamp)
    ensures Name in Rejected(Create(raw, now)) <==>
              raw.name.Some? && Utf16Length(Trim(raw.name.value)) > MaxNameLength
    ensures Create(raw, now).Ok? ==>
              Create(raw, now).value.name == (if raw.name.Some? then Trim(raw.name.value) else "Anonymous")
  {
    var t := Normalise(raw, now);
    assert Name in Rejected(Create(raw, now)) <==> Name in Faults(t);
    assert Name in Faults(t) <==> Utf16Length(t.name) > MaxNameLength;
  }

  lemma EnumPathsRestricted(raw: RawTestimony, now: Timestamp)
    ensures PhysicalPain in Rejected(Create(raw, now)) <==>
              raw.physicalPain.Some? && raw.physicalPain.value !in PainLevels
    ensures MentalPain in Rejected(Create(raw, now)) <==>
              raw.mentalPain.Some? && raw.mentalPain.value !in PainLevels
    ensures PeriodVolume in Rejected(Create(raw, now)) <==>
              raw.periodVolume.Some? && raw.periodVolume.value !in VolumeChanges
    ensures PeriodLength in Rejected(Create(raw, now)) <==>
              raw.periodLength.Some? && raw.periodLength.value !in LengthChanges
  {
    RestrictedPathFaults(Normalise(raw, now));
    RejectedAreFaults(raw, now, PhysicalPain);
    RejectedAreFaults(raw, now, MentalPain);
    RejectedAreFaults(raw, now, PeriodVolume);
    RejectedAreFaults(raw, now, PeriodLength);
  }

  /** A left-out status becomes "pending"; a given one must be one of the three
      states, and is kept as given. */
  lemma PostDefaultedAndRestricted(raw: RawTestimony, now: Timestamp)
    ensures Post in Rejected(Create(raw, now)) <==>
              raw.post.Some? && raw.post.value !in PostStates
    ensures Create(raw, now).Ok? ==> Create(raw, now).value.post == raw.post.GetOr("pending")
  {
    RestrictedPathFaults(Normalise(raw, now));
  }

  /** "declined" is not a state of this schema: the state is spelled "decline". */
  lemma DeclinedIsNotAState(raw: RawTestimony, now: Timestamp)
    requires raw.post == Some("declined")
    ensures Create(raw, now).Err? && Post in Create(raw, now).error
  {
    RestrictedPathFaults(Normalise(raw, now));
    assert "declined" !in PostStates;
  }

  /** No validator looks at the story. */
  lemma FaultsIgnoreStory(t: Testimony, story: Option<string>)
    ensures Faults(t.(story := story)) == Faults(t)
  {
    forall f: Field ensures PathValid(t.(story := story), f) == PathValid(t, f) {
    }
  }

  lemma StoryLeavesFaults(raw: RawTestimony, now: Timestamp, story: string)
    ensures Faults(Normalise(raw.(story := Some(story)), now)) == Faults(Normalise(raw.(story := None), now))
  {
    var with := Normalise(raw.(story := Some(story)), now);
    var without := Normalise(raw.(story := None), now);
    assert with.(story := None) == without.(story := None);
    FaultsIgnoreStory(with, None);
    FaultsIgnoreStory(without, None);
  }

  /** The story never decides acceptance, however long it is, and a stored
      story is the given one trimmed. */
  lemma StoryUnbounded(raw: RawTestimony, now: Timestamp, story: string)
    ensures Create(raw.(story := Some(story)), now).Ok? <==> Create(raw.(story := None), now).Ok?
    ensures Create(raw.(story := Some(story)), now).Ok? ==>
              Create(raw.(story := Some(story)), now).value.story == Some(Trim(story))
  {
    StoryLeavesFaults(raw, now, story);
  }

  // ----- The stored-document invariant -----

  /** A normalised document that passes every validator satisfies the
      schema invariant. */
  lemma PassingIsValid(raw: RawTestimony, now: Timestamp)
    requires Faults(Normalise(raw, now)) == {}
    ensures ValidTestimony(Normalise(raw, now))
  {
    var t := Normalise(raw, now);
    PassingShape(raw, now);
    PassingRestricted(t);
  }

  /** Helper of PassingIsValid: the trimmed, bounded and numeric paths. */
  lemma PassingShape(raw: RawTestimony, now: Timestamp)
    requires Faults(Normalise(raw, now)) == {}
    ensures var t := Normalise(raw, now);
      && Trimmed(t.name) && Utf16Length(t.name) <= MaxNameLength
      && t.whenWeeks.Some? && 5 <= t.whenWeeks.value <= 20
      && (t.whenWeeksNoticed.Some? ==> 5 <= t.whenWeeksNoticed.value <= 25)
      && (t.story.Some? ==> Trimmed(t.story.value))
  {
    var t := Normalise(raw, now);
    assert Name !in Faults(t) && WhenWeeks !in Faults(t) && WhenWeeksNoticed !in Faults(t);
  }

  /** Helper of PassingIsValid: the paths restricted to a list of values. */
  lemma PassingRestricted(t: Testimony)
    requires Faults(t) == {}
    ensures && (t.physicalPain.Some? ==> t.physicalPain.value in PainLevels)
            && (t.mentalPain.Some? ==> t.mentalPain.value in PainLevels)
            && (t.periodVolume.Some? ==> t.periodVolume.value in VolumeChanges)
            && (t.periodLength.Some? ==> t.periodLength.value in LengthChanges)
            && t.post in PostStates
  {
    RestrictedPathFaults(t);
    assert PhysicalPain !in Faults(t) && MentalPain !in Faults(t) && Post !in Faults(t);
    assert PeriodVolume !in Faults(t) && PeriodLength !in Faults(t);
  }

  /** A stored document submitted again, every path given. */
  function AsSubmission(t: Testimony): RawTestimony {
    RawTestimony(Some(t.name), t.whenWeeks, t.whenWeeksNoticed, t.physicalPain, t.mentalPain,
                 t.hospital, t.periodVolume, t.periodLength, t.periodPain, t.story,
                 Some(t.createdAt), Some(t.post))
  }

  /** Normalising changes nothing in a valid document. */
  lemma NormaliseFixesValid(t: Testimony, now: Timestamp)
    requires ValidTestimony(t)
    ensures Normalise(AsSubmission(t), now) == t
  {
    var n := Normalise(AsSubmission(t), now);
    assert n.name == t.name by { TrimOfTrimmed(t.name); }
    assert n.story == t.story by {
      if t.story.Some? { TrimOfTrimmed(t.story.value); }
    }
    assert n.post == t.post && n.createdAt == t.createdAt;
  }

  /** A valid document passes every validator. */
  lemma ValidHasNoFaults(t: Testimony)
    requires ValidTestimony(t)
    ensures Faults(t) == {}
  {
    forall f: Field ensures f !in Faults(t) {
    }
  }

  /** Resubmitting a document stores it unchanged exactly when it is valid:
      normalising is idempotent on stored documents, and nothing else is
      a fixed point of creation. */
  lemma ResubmitIsIdentity(t: Testimony, now: Timestamp)
    ensures ValidTestimony(t) <==> Create(AsSubmission(t), now) == Ok(t)
  {
    var raw := AsSubmission(t);
    if ValidTestimony(t) {
      NormaliseFixesValid(t, now);
      ValidHasNoFaults(t);
      assert Faults(Normalise(raw, now)) == {};
    }
  }
}
