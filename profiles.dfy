/** The profile controller (routes/api/profile.js) over an in-memory
    Profile collection. A document, stored or partial (the `profileFields`
    the upsert builds), is a record whose absent keys are `None`; `$set`
    overrides exactly the keys the partial document has. The request body
    is a record of optional strings; a missing field is `undefined`.
    `findOne` with a one-key equality filter answers the first document in
    natural order whose key holds the value; a filter value of `undefined`
    is sent to the store as `null`, which matches the documents that lack
    the key. */
module Profiles {
  import opened Common
  import opened StringSplit

  type ProfileId = string

  /** The string keys the upsert copies from the request when truthy (lines 124-131). */
  datatype TextKey = Handle | Company | Website | Location | Bio | Status | GithubUserName

  /** The keys of the `social` sub-document (lines 138-142). */
  datatype SocialKey = Youtube | Twitter | Facebook | Linkedin | Instagram

  datatype Social = Social(
    youtube: Option<string>,
    twitter: Option<string>,
    facebook: Option<string>,
    linkedin: Option<string>,
    instagram: Option<string>)

  datatype Document = Document(
    user: Option<UserId>,
    handle: Option<string>,
    company: Option<string>,
    website: Option<string>,
    location: Option<string>,
    bio: Option<string>,
    status: Option<string>,
    githubUserName: Option<string>,
    skills: Option<seq<string>>,
    social: Option<Social>)

  /** `{}` */
  const EmptyDocument := Document(None, None, None, None, None, None, None, None, None, None)
  const EmptySocial := Social(None, None, None, None, None)

  /** The fields of a request body that the upsert reads. */
  datatype ProfileInput = ProfileInput(
    handle: Option<string>,
    company: Option<string>,
    website: Option<string>,
    location: Option<string>,
    bio: Option<string>,
    status: Option<string>,
    githubUserName: Option<string>,
    skills: Option<string>,
    youtube: Option<string>,
    twitter: Option<string>,
    facebook: Option<string>,
    linkedin: Option<string>,
    instagram: Option<string>)

  datatype Profile = Profile(id: ProfileId, doc: Document)

  /** A handler's first response together with the collection afterwards. */
  datatype Step = Step(response: Response<Profile>, profiles: seq<Profile>)

  function TextAt(d: Document, k: TextKey): Option<string> {
    match k
    case Handle => d.handle
    case Company => d.company
    case Website => d.website
    case Location => d.location
    case Bio => d.bio
    case Status => d.status
    case GithubUserName => d.githubUserName
  }

  function SocialAt(s: Social, k: SocialKey): Option<string> {
    match k
    case Youtube => s.youtube
    case Twitter => s.twitter
    case Facebook => s.facebook
    case Linkedin => s.linkedin
    case Instagram => s.instagram
  }

  /** `req.body[k]` */
  function Requested(body: ProfileInput, k: TextKey): Option<string> {
    match k
    case Handle => body.handle
    case Company => body.company
    case Website => body.website
    case Location => body.location
    case Bio => body.bio
    case Status => body.status
    case GithubUserName => body.githubUserName
  }

  function SocialRequested(body: ProfileInput, k: SocialKey): Option<string> {
    match k
    case Youtube => body.youtube
    case Twitter => body.twitter
    case Facebook => body.facebook
    case Linkedin => body.linkedin
    case Instagram => body.instagram
  }

  /** The two keys the handlers filter on. */
  datatype FilterKey = ByUser | ByHandle

  function Lookup(p: Profile, key: FilterKey): Option<string> {
    match key
    case ByUser => p.doc.user
    case ByHandle => p.doc.handle
  }

  function LookupAll(profiles: seq<Profile>, key: FilterKey): seq<Option<string>> {
    seq(|profiles|, j requires 0 <= j < |profiles| => Lookup(profiles[j], key))
  }

  /** `Profile.findOne({ key: value })`: the position of the first match, or -1. */
  function FindOne(profiles: seq<Profile>, key: FilterKey, value: Option<string>): (k: int)
    ensures -1 <= k < |profiles|
    ensures k == -1 <==> forall j :: 0 <= j < |profiles| ==> Lookup(profiles[j], key) != value
    ensures 0 <= k ==> Lookup(profiles[k], key) == value
    ensures 0 <= k ==> forall j :: 0 <= j < k ==> Lookup(profiles[j], key) != value
  {
    var vs := LookupAll(profiles, key);
    assert forall j :: 0 <= j < |profiles| ==> vs[j] == Lookup(profiles[j], key);
    IndexOf(vs, value)
  }

  predicate HasProfile(profiles: seq<Profile>, user: UserId) {
    exists j :: 0 <= j < |profiles| && profiles[j].doc.user == Some(user)
  }

  predicate UniqueProfileIds(profiles: seq<Profile>) {
    forall i, j :: 0 <= i < j < |profiles| ==> profiles[i].id != profiles[j].id
  }

  function ProfileIds(profiles: seq<Profile>): seq<ProfileId> {
    seq(|profiles|, j requires 0 <= j < |profiles| => profiles[j].id)
  }

  /** The per-user state: every profile belongs to a user, and no user has two. */
  predicate OneProfilePerUser(profiles: seq<Profile>) {
    && (forall i :: 0 <= i < |profiles| ==> profiles[i].doc.user.Some?)
    && (forall i, j :: 0 <= i < j < |profiles| ==> profiles[i].doc.user != profiles[j].doc.user)
  }

  /** No two profiles share a handle. */
  predicate HandlesDistinct(profiles: seq<Profile>) {
    forall i, j :: 0 <= i < j < |profiles| && profiles[i].doc.handle.Some? ==>
      profiles[i].doc.handle != profiles[j].doc.handle
  }

  // ---------------------------------------------------------------------
  // GET /, GET /handle/:handle, GET /all, GET /user/:user_id

  /** `Profile.findOne({ user })`, answered by `GET /` for the caller and by
      `GET /user/:user_id` for the user named in the path: the two handlers
      are the same lookup. */
  function ProfileOfUser(profiles: seq<Profile>, user: UserId): (r: Response<Profile>)
    ensures r.Ok? || r.NotFound?
    ensures r.NotFound? <==> !HasProfile(profiles, user)
    ensures r.Ok? ==> r.value in profiles && r.value.doc.user == Some(user)
    ensures OneProfilePerUser(profiles) ==>
      forall j :: 0 <= j < |profiles| && profiles[j].doc.user == Some(user) ==> r == Ok(profiles[j])
  {
    var k := FindOne(profiles, ByUser, Some(user));
    if k < 0 then NotFound else Ok(profiles[k])
  }

  /** Handles need not be distinct (see `DuplicateHandleStillInserts`): the
      first profile holding the handle is answered. */
  function GetProfileByHandle(profiles: seq<Profile>, handle: string): (r: Response<Profile>)
    ensures r.Ok? || r.NotFound?
    ensures r.NotFound? <==> forall j :: 0 <= j < |profiles| ==> profiles[j].doc.handle != Some(handle)
    ensures r.Ok? ==> exists j :: (0 <= j < |profiles| && r.value == profiles[j]
      && profiles[j].doc.handle == Some(handle)
      && forall i :: 0 <= i < j ==> profiles[i].doc.handle != Some(handle))
  {
    var k := FindOne(profiles, ByHandle, Some(handle));
    if k < 0 then NotFound else Ok(profiles[k])
  }

  /** `Profile.find()` answers an array, which is never falsy, so the
      `!profiles` branch cannot fire. */
  function ListProfiles(profiles: seq<Profile>): (r: Response<seq<Profile>>)
    ensures r == Ok(profiles)
  {
    if !Truthy(Array(|profiles|)) then NotFound else Ok(profiles)
  }

  // ---------------------------------------------------------------------
  // profileFields (lines 122-142)

  /** The skills guard at line 133. `typeof` yields a string, and no string
      is `===` to the value `undefined`. */
  predicate SkillsGuardAsWritten(body: ProfileInput): (r: bool)
    ensures r
  {
    !StrictEquals(Str(TypeOf(FromBody(body.skills))), Undefined)
  }

  /** The request value if it is truthy, otherwise no key at all. */
  function IfTruthy(field: Option<string>): Option<string> {
    if TruthyField(field) then field else None
  }

  /** Lines 137-142: `social` is a fresh record of the truthy social fields. */
  function SocialOf(body: ProfileInput): (social: Social)
    ensures forall k :: SocialAt(social, k).Some? <==> TruthyField(SocialRequested(body, k))
    ensures forall k :: SocialAt(social, k).Some? ==> SocialAt(social, k) == SocialRequested(body, k)
  {
    Social(IfTruthy(body.youtube), IfTruthy(body.twitter), IfTruthy(body.facebook),
           IfTruthy(body.linkedin), IfTruthy(body.instagram))
  }

  /** Lines 122-131: the caller and the truthy request fields. */
  function TextFieldsOf(caller: UserId, body: ProfileInput): (r: Document)
    ensures r.user == Some(caller)
    ensures forall k ::
      && (TextAt(r, k).Some? <==> TruthyField(Requested(body, k)))
      && (TextAt(r, k).Some? ==> TextAt(r, k) == Requested(body, k))
    ensures r.skills.None? && r.social.None?
  {
    Document(Some(caller), IfTruthy(body.handle), IfTruthy(body.company), IfTruthy(body.website),
             IfTruthy(body.location), IfTruthy(body.bio), IfTruthy(body.status),
             IfTruthy(body.githubUserName), None, None)
  }

  /** The `profileFields` dictionary the handler builds, or `None` when the
      request has no `skills` and `undefined.split(",")` throws. */
  function ProfileFieldsOf(caller: UserId, body: ProfileInput): (r: Option<Document>)
    ensures r.None? <==> body.skills.None?
    ensures r.Some? ==> r.value.user == Some(caller)
    ensures r.Some? ==> forall k ::
      && (TextAt(r.value, k).Some? <==> TruthyField(Requested(body, k)))
      && (TextAt(r.value, k).Some? ==> TextAt(r.value, k) == Requested(body, k))
    ensures r.Some? ==> r.value.skills == Some(Split(body.skills.value, ','))
    ensures r.Some? ==> r.value.social == Some(SocialOf(body))
  {
    var guard := SkillsGuardAsWritten(body);
    if guard && body.skills.None? then None
    else
      var text := TextFieldsOf(caller, body);
      var fields := if guard then text.(skills := Some(Split(body.skills.value, ','))) else text;
      Some(fields.(social := Some(SocialOf(body))))
  }

  /** Lines 122-142 step by step: `profileFields` starts empty and each
      assignment adds a key. */
  method BuildProfileFields(caller: UserId, body: ProfileInput) returns (r: Option<Document>)
    ensures r == ProfileFieldsOf(caller, body)
  {
    var profileFields := EmptyDocument;
    profileFields := profileFields.(user := Some(caller));
    if TruthyField(body.handle) { profileFields := profileFields.(handle := body.handle); }
    if TruthyField(body.company) { profileFields := profileFields.(company := body.company); }
    if TruthyField(body.website) { profileFields := profileFields.(website := body.website); }
    if TruthyField(body.location) { profileFields := profileFields.(location := body.location); }
    if TruthyField(body.bio) { profileFields := profileFields.(bio := body.bio); }
    if TruthyField(body.status) { profileFields := profileFields.(status := body.status); }
    if TruthyField(body.githubUserName) {
      profileFields := profileFields.(githubUserName := body.githubUserName);
    }
    assert profileFields == TextFieldsOf(caller, body);
    if SkillsGuardAsWritten(body) {
      if body.skills.None? {
        // `undefined.split(",")` throws a TypeError
        return None;
      }
      profileFields := profileFields.(skills := Some(Split(body.skills.value, ',')));
    }
    var social := EmptySocial;
    if TruthyField(body.youtube) { social := social.(youtube := body.youtube); }
    if TruthyField(body.twitter) { social := social.(twitter := body.twitter); }
    if TruthyField(body.facebook) { social := social.(facebook := body.facebook); }
    if TruthyField(body.linkedin) { social := social.(linkedin := body.linkedin); }
    if TruthyField(body.instagram) { social := social.(instagram := body.instagram); }
    assert social == SocialOf(body);
    profileFields := profileFields.(social := Some(social));
    r := Some(profileFields);
  }

  /** The fields with the guard meant at line 133 (`typeof x !== "undefined"`):
      a request without skills leaves the key out instead of throwing. */
  function IntendedProfileFields(caller: UserId, body: ProfileInput): (r: Document)
    ensures r.skills.Some? <==> body.skills.Some?
    ensures body.skills.Some? ==> ProfileFieldsOf(caller, body) == Some(r)
    ensures body.skills.None? ==> r == ProfileFieldsOf(caller, body.(skills := Some(""))).value.(skills := None)
  {
    var text := TextFieldsOf(caller, body);
    var fields := if body.skills.Some? then text.(skills := Some(Split(body.skills.value, ','))) else text;
    fields.(social := Some(SocialOf(body)))
  }

  // ---------------------------------------------------------------------
  // POST / (lines 109-169)

  /** A key of a `$set` update: its value if the update has the key,
      otherwise the stored one. */
  function Override<T>(stored: Option<T>, update: Option<T>): Option<T> {
    if update.Some? then update else stored
  }

  /** `{ $set: update }`: the keys of the update take its values, the other
      keys keep theirs; a sub-document is replaced as a whole. */
  function SetFields(stored: Document, update: Document): (r: Document)
    ensures forall k :: TextAt(r, k) == if TextAt(update, k).Some? then TextAt(update, k) else TextAt(stored, k)
    ensures r.user == if update.user.Some? then update.user else stored.user
    ensures r.skills == if update.skills.Some? then update.skills else stored.skills
    ensures r.social == if update.social.Some? then update.social else stored.social
  {
    Document(
      Override(stored.user, update.user),
      Override(stored.handle, update.handle),
      Override(stored.company, update.company),
      Override(stored.website, update.website),
      Override(stored.location, update.location),
      Override(stored.bio, update.bio),
      Override(stored.status, update.status),
      Override(stored.githubUserName, update.githubUserName),
      Override(stored.skills, update.skills),
      Override(stored.social, update.social))
  }

  /** `Profile.findOne({ handle: profileFields.handle })` finds a profile. */
  predicate HandleTaken(profiles: seq<Profile>, fields: Document): (r: bool)
    ensures r <==> exists j :: 0 <= j < |profiles| && profiles[j].doc.handle == fields.handle
  {
    FindOne(profiles, ByHandle, fields.handle) >= 0
  }

  /** The upsert as written: after answering `DuplicateHandle` it still saves
      the new profile (no `return` at line 160). */
  function UpsertStep(profiles: seq<Profile>, caller: UserId, body: ProfileInput, v: Validation,
                      freshId: ProfileId): (s: Step)
    ensures !v.isValid ==> s == Step(InvalidInput(v.errors), profiles)
    ensures v.isValid && body.skills.None? ==> s == Step(Threw, profiles)
    ensures v.isValid && body.skills.Some? && HasProfile(profiles, caller) ==>
      var f := ProfileFieldsOf(caller, body).value;
      var i := FindOne(profiles, ByUser, Some(caller));
      && |s.profiles| == |profiles|
      && (forall j :: 0 <= j < |profiles| && j != i ==> s.profiles[j] == profiles[j])
      && s.profiles[i] == Profile(profiles[i].id, SetFields(profiles[i].doc, f))
      && s.response == Ok(s.profiles[i])
    ensures v.isValid && body.skills.Some? && !HasProfile(profiles, caller) ==>
      var f := ProfileFieldsOf(caller, body).value;
      && s.profiles == profiles + [Profile(freshId, f)]
      && s.response == if HandleTaken(profiles, f) then DuplicateHandle else Ok(Profile(freshId, f))
  {
    if !v.isValid then Step(InvalidInput(v.errors), profiles)
    else
      var fields := ProfileFieldsOf(caller, body);
      if fields.None? then Step(Threw, profiles)
      else
        var f := fields.value;
        var i := FindOne(profiles, ByUser, Some(caller));
        if i >= 0 then
          var updated := Profile(profiles[i].id, SetFields(profiles[i].doc, f));
          Step(Ok(updated), profiles[i := updated])
        else
          var created := Profile(freshId, f);
          Step(if HandleTaken(profiles, f) then DuplicateHandle else Ok(created), profiles + [created])
  }

  /** The upsert meant by lines 156-164: a taken handle is answered with
      `DuplicateHandle` and nothing is saved, and a request without skills
      leaves them out (see `IntendedProfileFields`). */
  function UpsertIntendedStep(profiles: seq<Profile>, caller: UserId, body: ProfileInput, v: Validation,
                              freshId: ProfileId): (s: Step)
    ensures !v.isValid ==> s == Step(InvalidInput(v.errors), profiles)
    ensures v.isValid && HasProfile(profiles, caller) ==>
      var f := IntendedProfileFields(caller, body);
      var i := FindOne(profiles, ByUser, Some(caller));
      && |s.profiles| == |profiles|
      && (forall j :: 0 <= j < |profiles| && j != i ==> s.profiles[j] == profiles[j])
      && s.profiles[i] == Profile(profiles[i].id, SetFields(profiles[i].doc, f))
      && s.response == Ok(s.profiles[i])
    ensures v.isValid && !HasProfile(profiles, caller) ==>
      var f := IntendedProfileFields(caller, body);
      if HandleTaken(profiles, f) then s == Step(DuplicateHandle, profiles)
      else s == Step(Ok(Profile(freshId, f)), profiles + [Profile(freshId, f)])
  {
    if !v.isValid then Step(InvalidInput(v.errors), profiles)
    else
      var f := IntendedProfileFields(caller, body);
      var i := FindOne(profiles, ByUser, Some(caller));
      if i >= 0 then
        var updated := Profile(profiles[i].id, SetFields(profiles[i].doc, f));
        Step(Ok(updated), profiles[i := updated])
      else if HandleTaken(profiles, f) then Step(DuplicateHandle, profiles)
      else
        var created := Profile(freshId, f);
        Step(Ok(created), profiles + [created])
  }

  /** The upsert keeps one profile per user and distinct profile ids. */
  lemma UpsertKeepsOneProfilePerUser(profiles: seq<Profile>, caller: UserId, body: ProfileInput,
                                     v: Validation, freshId: ProfileId)
    requires OneProfilePerUser(profiles) && UniqueProfileIds(profiles) && freshId !in ProfileIds(profiles)
    ensures OneProfilePerUser(UpsertStep(profiles, caller, body, v, freshId).profiles)
    ensures UniqueProfileIds(UpsertStep(profiles, caller, body, v, freshId).profiles)
  {
    var s := UpsertStep(profiles, caller, body, v, freshId);
    if v.isValid && body.skills.Some? {
      var f := ProfileFieldsOf(caller, body).value;
      var i := FindOne(profiles, ByUser, Some(caller));
      if i >= 0 {
        assert s.profiles == profiles[i := Profile(profiles[i].id, SetFields(profiles[i].doc, f))];
      } else {
        assert s.profiles == profiles + [Profile(freshId, f)];
        assert forall j :: 0 <= j < |profiles| ==> ProfileIds(profiles)[j] == profiles[j].id;
      }
    }
  }

  /** The intended upsert keeps the same invariants. */
  lemma UpsertIntendedKeepsOneProfilePerUser(profiles: seq<Profile>, caller: UserId, body: ProfileInput,
                                             v: Validation, freshId: ProfileId)
    requires OneProfilePerUser(profiles) && UniqueProfileIds(profiles) && freshId !in ProfileIds(profiles)
    ensures OneProfilePerUser(UpsertIntendedStep(profiles, caller, body, v, freshId).profiles)
    ensures UniqueProfileIds(UpsertIntendedStep(profiles, caller, body, v, freshId).profiles)
  {
    var s := UpsertIntendedStep(profiles, caller, body, v, freshId);
    if v.isValid {
      var f := IntendedProfileFields(caller, body);
      var i := FindOne(profiles, ByUser, Some(caller));
      if i >= 0 {
        assert s.profiles == profiles[i := Profile(profiles[i].id, SetFields(profiles[i].doc, f))];
      } else if !HandleTaken(profiles, f) {
        assert s.profiles == profiles + [Profile(freshId, f)];
        assert forall j :: 0 <= j < |profiles| ==> ProfileIds(profiles)[j] == profiles[j].id;
      }
    }
  }

  /** The intended upsert, unlike the one as written, never creates a
      profile whose handle another profile holds. */
  lemma UpsertIntendedKeepsHandlesDistinct(profiles: seq<Profile>, caller: UserId, body: ProfileInput,
                                           v: Validation, freshId: ProfileId)
    requires !HasProfile(profiles, caller) && HandlesDistinct(profiles)
    ensures HandlesDistinct(UpsertIntendedStep(profiles, caller, body, v, freshId).profiles)
  {
    var s := UpsertIntendedStep(profiles, caller, body, v, freshId);
    if v.isValid {
      var f := IntendedProfileFields(caller, body);
      if !HandleTaken(profiles, f) {
        assert s.profiles == profiles + [Profile(freshId, f)];
      }
    }
  }

  // ---------------------------------------------------------------------
  // Properties that relate several requests

  /** No `return` after the `DuplicateHandle` answer: the profile is saved
      anyway, and two profiles then hold the same handle. */
  lemma DuplicateHandleStillInserts(profiles: seq<Profile>, caller: UserId, body: ProfileInput,
                                    v: Validation, freshId: ProfileId, j: nat)
    requires v.isValid && body.skills.Some? && !HasProfile(profiles, caller)
    requires body.handle.Some? && body.handle.value != ""
    requires j < |profiles| && profiles[j].doc.handle == body.handle
    ensures
      var s := UpsertStep(profiles, caller, body, v, freshId);
      && s.response == DuplicateHandle
      && |s.profiles| == |profiles| + 1
      && !HandlesDistinct(s.profiles)
  {
    var s := UpsertStep(profiles, caller, body, v, freshId);
    var f := ProfileFieldsOf(caller, body).value;
    assert TextAt(f, Handle) == body.handle;
    assert HandleTaken(profiles, f);
    assert s.profiles[j].doc.handle == s.profiles[|profiles|].doc.handle;
  }

  /** An update `$set`s the request's truthy fields onto the caller's own
      profile: the other string fields keep their stored values, `skills`
      and `social` are replaced as a whole, and the handle is not checked
      against the other profiles. */
  lemma UpdateKeepsAbsentFields(profiles: seq<Profile>, caller: UserId, body: ProfileInput,
                                v: Validation, freshId: ProfileId)
    requires v.isValid && body.skills.Some? && HasProfile(profiles, caller)
    ensures
      var s := UpsertStep(profiles, caller, body, v, freshId);
      var i := FindOne(profiles, ByUser, Some(caller));
      && s.response.Ok? && |s.profiles| == |profiles|
      && s.profiles[i].id == profiles[i].id
      && s.profiles[i].doc.user == Some(caller)
      && (forall k :: !TruthyField(Requested(body, k)) ==> TextAt(s.profiles[i].doc, k) == TextAt(profiles[i].doc, k))
      && (forall k :: TruthyField(Requested(body, k)) ==> TextAt(s.profiles[i].doc, k) == Requested(body, k))
      && s.profiles[i].doc.skills == Some(Split(body.skills.value, ','))
      && s.profiles[i].doc.social == Some(SocialOf(body))
  {
    var f := ProfileFieldsOf(caller, body).value;
    var i := FindOne(profiles, ByUser, Some(caller));
    var d := SetFields(profiles[i].doc, f);
    forall k | !TruthyField(Requested(body, k)) ensures TextAt(d, k) == TextAt(profiles[i].doc, k) {
      assert TextAt(f, k).None?;
    }
  }

  /** Upserting twice for a caller without a profile: the first call creates
      it, the second updates that same document and creates nothing. */
  lemma UpsertTwiceUpdatesSameProfile(profiles: seq<Profile>, caller: UserId, b1: ProfileInput,
                                      b2: ProfileInput, v: Validation, id1: ProfileId, id2: ProfileId)
    requires v.isValid && b1.skills.Some? && b2.skills.Some? && !HasProfile(profiles, caller)
    ensures
      var first := UpsertStep(profiles, caller, b1, v, id1);
      var second := UpsertStep(first.profiles, caller, b2, v, id2);
      && |first.profiles| == |profiles| + 1
      && |second.profiles| == |first.profiles|
      && second.response.Ok? && second.response.value.id == id1
  {
    var first := UpsertStep(profiles, caller, b1, v, id1);
    var n := |profiles|;
    assert first.profiles[n].doc.user == Some(caller);
    assert HasProfile(first.profiles, caller);
    assert FindOne(first.profiles, ByUser, Some(caller)) == n by {
      assert forall j :: 0 <= j < n ==> first.profiles[j] == profiles[j];
    }
  }

  // ---------------------------------------------------------------------
  // The collection, updated in place by the handler

  class ProfileStore {
    var profiles: seq<Profile>

    ghost predicate Valid()
      reads this
    {
      UniqueProfileIds(profiles) && OneProfilePerUser(profiles)
    }

    constructor ()
      ensures Valid() && profiles == []
    {
      profiles := [];
    }

    /** POST /, as written. */
    method Upsert(caller: UserId, body: ProfileInput, v: Validation, freshId: ProfileId)
      returns (r: Response<Profile>)
      requires Valid() && freshId !in ProfileIds(profiles)
      modifies this
      ensures Step(r, profiles) == UpsertStep(old(profiles), caller, body, v, freshId)
      ensures Valid()
    {
      UpsertKeepsOneProfilePerUser(profiles, caller, body, v, freshId);
      if !v.isValid {
        return InvalidInput(v.errors);
      }
      var fields := BuildProfileFields(caller, body);
      if fields.None? {
        return Threw;
      }
      var profileFields := fields.value;
      var i := FindOne(profiles, ByUser, Some(caller));
      if i >= 0 {
        // findOneAndUpdate({ user }, { $set: profileFields }, { new: true })
        var updated := Profile(profiles[i].id, SetFields(profiles[i].doc, profileFields));
        profiles := profiles[i := updated];
        return Ok(updated);
      }
      var created := Profile(freshId, profileFields);
      if HandleTaken(profiles, profileFields) {
        r := DuplicateHandle;
      } else {
        r := Ok(created);
      }
      // `new Profile(profileFields).save()` runs in both cases
      profiles := profiles + [created];
    }

    /** POST / with the intended skills guard and a `return` after `DuplicateHandle`. */
    method UpsertIntended(caller: UserId, body: ProfileInput, v: Validation, freshId: ProfileId)
      returns (r: Response<Profile>)
      requires Valid() && freshId !in ProfileIds(profiles)
      modifies this
      ensures Step(r, profiles) == UpsertIntendedStep(old(profiles), caller, body, v, freshId)
      ensures Valid()
    {
      UpsertIntendedKeepsOneProfilePerUser(profiles, caller, body, v, freshId);
      if !v.isValid {
        return InvalidInput(v.errors);
      }
      var profileFields := IntendedProfileFields(caller, body);
      var i := FindOne(profiles, ByUser, Some(caller));
      if i >= 0 {
        var updated := Profile(profiles[i].id, SetFields(profiles[i].doc, profileFields));
        profiles := profiles[i := updated];
        return Ok(updated);
      }
      if HandleTaken(profiles, profileFields) {
        return DuplicateHandle;
      }
      var created := Profile(freshId, profileFields);
      profiles := profiles + [created];
      r := Ok(created);
    }
  }
}
