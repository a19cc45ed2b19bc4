/** The profile routes: building `profileFields` from a request body, the
    create-or-update keyed on the requester, and reading the current profile. */
module Profiles {
  import opened Js
  import opened Http

  /** A profile document, or the `profileFields` object built for one: its
      top-level keys and their values. */
  type Document = map<string, Value>

  /** The body fields copied to the top level when truthy. */
  const TextFields: set<string> :=
    {"handle", "company", "website", "location", "bio", "status", "githubUsername"}

  /** The body fields copied into `social` when truthy. */
  const SocialFields: set<string> := {"youtube", "twitter", "facebook", "linkedin", "instagram"}

  const NoProfile := map["noProfile" := "There is no profile for this user"]
  const HandleTakenMessage := "That handle already exits"

  /** `typeof skills !== "undefined"` and `skills.split(",")` does not throw. */
  predicate SkillsSplittable(skills: Value) {
    skills.Undefined? || skills.Str?
  }

  /** The fields of `body` named in `keys` whose values are truthy. */
  function TruthyFields(body: Document, keys: set<string>): (r: Document)
    ensures forall k :: k in r <==> k in keys && Truthy(Get(body, k))
    ensures forall k :: k in r ==> k in body && r[k] == body[k]
  {
    map k | k in keys && k in body && Truthy(body[k]) :: body[k]
  }

  /** The `profileFields` object the handler builds, as a function of the body.
      Threw when `skills` is defined but not a string. Its contract states the
      object declaratively: the requester as `user`; exactly the text fields
      that are truthy in the body; `skills` split on commas whenever it is
      defined; and `social`, always present, with exactly the truthy links. */
  function ProfileFieldsOf(body: Document, requester: UserId): (r: Completion<Document>)
    ensures r.Normal? <==> SkillsSplittable(Get(body, "skills"))
    ensures r.Normal? ==> r.value.Keys <= TextFields + {"user", "skills", "social"}
    ensures r.Normal? ==> Get(r.value, "user") == Str(requester)
    ensures r.Normal? ==> forall k :: k in TextFields ==> (k in r.value <==> Truthy(Get(body, k)))
    ensures r.Normal? ==> forall k :: k in TextFields && k in r.value ==> k in body && r.value[k] == body[k]
    ensures r.Normal? ==> ("skills" in r.value <==> !Get(body, "skills").Undefined?)
    ensures r.Normal? && "skills" in r.value ==> r.value["skills"] == List(SplitOnComma(body["skills"].s))
    ensures r.Normal? ==> "social" in r.value && r.value["social"].Obj?
    ensures r.Normal? ==> r.value["social"].fields.Keys <= SocialFields
    ensures r.Normal? ==> forall k :: k in SocialFields ==> (k in r.value["social"].fields <==> Truthy(Get(body, k)))
    ensures r.Normal? ==> forall k :: k in r.value["social"].fields ==> k in body && r.value["social"].fields[k] == body[k]
  {
    var skills := Get(body, "skills");
    if !SkillsSplittable(skills) then Threw
    else
      var top := map["user" := Str(requester)] + TruthyFields(body, TextFields);
      assert "user" !in TextFields && "skills" !in TextFields && "social" !in TextFields;
      assert Get(top, "user") == Str(requester);
      var withSkills := if skills.Str? then top["skills" := List(SplitOnComma(skills.s))] else top;
      Normal(withSkills["social" := Obj(TruthyFields(body, SocialFields))])
  }

  /** Before the first copy nothing has been added. */
  lemma NothingCopied(base: Document, body: Document)
    ensures base + TruthyFields(body, {}) == base
  {
    assert TruthyFields(body, {}) == map[];
  }

  /** Lines 113-132, step by step: the text fields, the skills and the social
      links assigned in turn to a fresh object. */
  method BuildProfileFields(body: Document, requester: UserId) returns (r: Completion<Document>)
    ensures r == ProfileFieldsOf(body, requester)
  {
    var fields := CopyTextFields(body, requester);
    var skills := Get(body, "skills");
    if !skills.Undefined? {
      if !skills.Str? {
        return Threw;
      }
      fields := fields["skills" := List(SplitOnComma(skills.s))];
    }
    var social := CopySocialLinks(body);
    fields := fields["social" := Obj(social)];
    r := Normal(fields);
  }

  /** Lines 113-123: `user`, then each text field that is truthy in the body. */
  method CopyTextFields(body: Document, requester: UserId) returns (fields: Document)
    ensures fields == map["user" := Str(requester)] + TruthyFields(body, TextFields)
  {
    fields := map[];
    fields := fields["user" := Str(requester)];
    ghost var base := fields;
    ghost var done: set<string> := {};
    FieldNames();
    NothingCopied(base, body);
    CopyStep(base, body, done, "handle");
    if Truthy(Get(body, "handle")) { fields := fields["handle" := body["handle"]]; }
    done := done + {"handle"};
    assert fields == base + TruthyFields(body, done);
    CopyStep(base, body, done, "company");
    if Truthy(Get(body, "company")) { fields := fields["company" := body["company"]]; }
    done := done + {"company"};
    assert fields == base + TruthyFields(body, done);
    CopyStep(base, body, done, "website");
    if Truthy(Get(body, "website")) { fields := fields["website" := body["website"]]; }
    done := done + {"website"};
    assert fields == base + TruthyFields(body, done);
    CopyStep(base, body, done, "location");
    if Truthy(Get(body, "location")) { fields := fields["location" := body["location"]]; }
    done := done + {"location"};
    assert fields == base + TruthyFields(body, done);
    CopyStep(base, body, done, "bio");
    if Truthy(Get(body, "bio")) { fields := fields["bio" := body["bio"]]; }
    done := done + {"bio"};
    assert fields == base + TruthyFields(body, done);
    CopyStep(base, body, done, "status");
    if Truthy(Get(body, "status")) { fields := fields["status" := body["status"]]; }
    done := done + {"status"};
    assert fields == base + TruthyFields(body, done);
    CopyStep(base, body, done, "githubUsername");
    if Truthy(Get(body, "githubUsername")) { fields := fields["githubUsername" := body["githubUsername"]]; }
    done := done + {"githubUsername"};
    assert fields == base + TruthyFields(body, done);
  }

  /** Lines 126-132: each social link that is truthy in the body, into a fresh
      `social` object. */
  method CopySocialLinks(body: Document) returns (social: Document)
    ensures social == TruthyFields(body, SocialFields)
  {
    social := map[];
    ghost var done: set<string> := {};
    FieldNames();
    NothingCopied(social, body);
    CopyStep(map[], body, done, "youtube");
    if Truthy(Get(body, "youtube")) { social := social["youtube" := body["youtube"]]; }
    done := done + {"youtube"};
    assert social == map[] + TruthyFields(body, done);
    CopyStep(map[], body, done, "twitter");
    if Truthy(Get(body, "twitter")) { social := social["twitter" := body["twitter"]]; }
    done := done + {"twitter"};
    assert social == map[] + TruthyFields(body, done);
    CopyStep(map[], body, done, "facebook");
    if Truthy(Get(body, "facebook")) { social := social["facebook" := body["facebook"]]; }
    done := done + {"facebook"};
    assert social == map[] + TruthyFields(body, done);
    CopyStep(map[], body, done, "linkedin");
    if Truthy(Get(body, "linkedin")) { social := social["linkedin" := body["linkedin"]]; }
    done := done + {"linkedin"};
    assert social == map[] + TruthyFields(body, done);
    CopyStep(map[], body, done, "instagram");
    if Truthy(Get(body, "instagram")) { social := social["instagram" := body["instagram"]]; }
    done := done + {"instagram"};
    assert social == map[] + TruthyFields(body, done);
    MapEmptyUnion(TruthyFields(body, SocialFields));
  }

  /** The empty object added to an object leaves it as it is. */
  lemma MapEmptyUnion(m: Document)
    ensures map[] + m == m
  {
  }

  /** The two key sets, spelled out in the order the handler assigns them. */
  lemma FieldNames()
    ensures {} + {"handle"} + {"company"} + {"website"} + {"location"} + {"bio"} + {"status"}
            + {"githubUsername"} == TextFields
    ensures {} + {"youtube"} + {"twitter"} + {"facebook"} + {"linkedin"} + {"instagram"} == SocialFields
  {
  }

  /** One conditional assignment `if (body.k) into.k = body.k` extends the
      truthy fields copied so far by k. */
  lemma CopyStep(base: Document, body: Document, keys: set<string>, k: string)
    requires k !in base
    ensures (if Truthy(Get(body, k)) then (base + TruthyFields(body, keys))[k := body[k]]
             else base + TruthyFields(body, keys)) == base + TruthyFields(body, keys + {k})
  {
  }

  /** The skills the server stores join back to the string that was sent. */
  lemma SkillsJoinBack(body: Document, requester: UserId)
    requires Get(body, "skills").Str?
    ensures var r := ProfileFieldsOf(body, requester);
      r.Normal? && JoinWithComma(r.value["skills"].items) == body["skills"].s
  {
    JoinSplit(body["skills"].s);
  }

  /** `Profile.findOne({ handle })` on the create path finds a document. A
      handle that is not there (absent or falsy in the body, so never copied)
      makes the query `{ handle: undefined }`, which Mongoose reduces to `{}`:
      it then finds any profile at all. */
  predicate HandleTaken(profiles: map<UserId, Document>, handle: Value): (r: bool)
    ensures r ==> profiles != map[]
    ensures handle.Undefined? ==> (r <==> profiles != map[])
    ensures !handle.Undefined? ==> (r <==> exists u :: u in profiles && Get(profiles[u], "handle") == handle)
  {
    if handle.Undefined? then profiles != map[]
    else exists u :: u in profiles && Get(profiles[u], "handle") == handle
  }

  /** The intended invariant: no two profiles share a handle. */
  ghost predicate UniqueHandles(profiles: map<UserId, Document>) {
    forall u, v :: u in profiles && v in profiles && u != v ==>
      Get(profiles[u], "handle") != Get(profiles[v], "handle")
  }

  /** `$set: profileFields` on an existing document: every top-level key of the
      update replaces the stored one (`social` as a whole); other keys stay. */
  function SetFields(stored: Document, update: Document): (r: Document)
    ensures r.Keys == stored.Keys + update.Keys
    ensures forall k :: k in update ==> r[k] == update[k]
    ensures forall k :: k in stored && k !in update ==> r[k] == stored[k]
  {
    stored + update
  }

  /** A create that passes the handle check keeps handles unique. */
  lemma CreateKeepsUniqueHandles(profiles: map<UserId, Document>, u: UserId, pf: Document)
    requires UniqueHandles(profiles)
    requires u !in profiles
    requires !HandleTaken(profiles, Get(pf, "handle"))
    ensures UniqueHandles(profiles[u := pf])
  {
  }

  /** The profiles collection, keyed by owner: at most one profile per user. */
  class ProfileStore {
    var profiles: map<UserId, Document>

    /** Every profile records its own key as its `user`. */
    ghost predicate Valid()
      reads this
    {
      forall u :: u in profiles ==> Get(profiles[u], "user") == Str(u)
    }

    constructor ()
      ensures Valid() && profiles == map[]
    {
      profiles := map[];
    }

    /** `GET /`: the requester's profile or 404. */
    function Current(requester: UserId): (r: Response<Document>)
      reads this
      ensures r.Fail? <==> requester !in profiles
      ensures r.Fail? ==> r == Fail(404, NoProfile)
      ensures r.Json? ==> r.body == profiles[requester]
    {
      if requester in profiles then Json(profiles[requester]) else Fail(404, NoProfile)
    }

    /** The update path: `findOneAndUpdate` with `$set` and `{ new: true }`. No
        handle check is made; the number of profiles does not change. */
    method Update(requester: UserId, pf: Document) returns (r: Response<Document>)
      requires Valid()
      requires requester in profiles
      requires Get(pf, "user") == Str(requester)
      modifies this
      ensures Valid()
      ensures profiles == old(profiles)[requester := SetFields(old(profiles)[requester], pf)]
      ensures |profiles| == |old(profiles)|
      ensures r == Json(profiles[requester])
    {
      var updated := profiles[requester] + pf;
      assert profiles.Keys == profiles[requester := updated].Keys;
      profiles := profiles[requester := updated];
      r := Json(updated);
    }

    /** The create path with the handle check taking effect: a taken handle
        answers 400 and nothing is saved. */
    method Create(requester: UserId, pf: Document, errors: map<string, string>) returns (r: Response<Document>)
      requires Valid()
      requires requester !in profiles
      requires Get(pf, "user") == Str(requester)
      modifies this
      ensures Valid()
      ensures UniqueHandles(old(profiles)) ==> UniqueHandles(profiles)
      ensures HandleTaken(old(profiles), Get(pf, "handle")) ==>
        r == Fail(400, errors["handle" := HandleTakenMessage]) && profiles == old(profiles)
      ensures !HandleTaken(old(profiles), Get(pf, "handle")) ==>
        r == Json(pf) && profiles == old(profiles)[requester := pf]
    {
      if HandleTaken(profiles, Get(pf, "handle")) {
        return Fail(400, errors["handle" := HandleTakenMessage]);
      }
      if UniqueHandles(profiles) {
        CreateKeepsUniqueHandles(profiles, requester, pf);
      }
      profiles := profiles[requester := pf];
      r := Json(pf);
    }

    /** The create path as written: the 400 for a taken handle is sent, but
        without a `return` the save still runs. */
    method CreateAsWritten(requester: UserId, pf: Document, errors: map<string, string>)
      returns (r: Response<Document>)
      requires Valid()
      requires requester !in profiles
      requires Get(pf, "user") == Str(requester)
      modifies this
      ensures Valid()
      ensures profiles == old(profiles)[requester := pf]
      ensures HandleTaken(old(profiles), Get(pf, "handle")) ==> r == Fail(400, errors["handle" := HandleTakenMessage])
      ensures !HandleTaken(old(profiles), Get(pf, "handle")) ==> r == Json(pf)
    {
      var taken := HandleTaken(profiles, Get(pf, "handle"));
      if taken {
        r := Fail(400, errors["handle" := HandleTakenMessage]);
      }
      profiles := profiles[requester := pf];
      if !taken {
        r := Json(pf);
      }
    }

    /** `POST /`: validate, build `profileFields`, then update the requester's
        profile or create one. */
    method Upsert(body: Document, check: Validation, requester: UserId) returns (r: Response<Document>)
      requires Valid()
      modifies this
      ensures Valid()
      ensures !check.isValid ==> r == Fail(400, check.errors) && profiles == old(profiles)
      ensures check.isValid && ProfileFieldsOf(body, requester).Threw? ==>
        r == ServerError && profiles == old(profiles)
      ensures check.isValid && ProfileFieldsOf(body, requester).Normal? ==>
        var pf := ProfileFieldsOf(body, requester).value;
        if requester in old(profiles) then
          && profiles == old(profiles)[requester := SetFields(old(profiles)[requester], pf)]
          && r == Json(profiles[requester])
        else if HandleTaken(old(profiles), Get(pf, "handle")) then
          r == Fail(400, check.errors["handle" := HandleTakenMessage]) && profiles == old(profiles)
        else
          r == Json(pf) && profiles == old(profiles)[requester := pf]
      ensures requester !in old(profiles) && UniqueHandles(old(profiles)) ==> UniqueHandles(profiles)
    {
      if !check.isValid {
        return Fail(400, check.errors);
      }
      var built := BuildProfileFields(body, requester);
      if built.Threw? {
        return ServerError;
      }
      var pf := built.value;
      if requester in profiles {
        r := Update(requester, pf);
      } else {
        r := Create(requester, pf, check.errors);
      }
    }

    /** `POST /` exactly as written: like `Upsert`, except that a new profile
        whose handle is taken is answered 400 and saved all the same. */
    method UpsertAsWritten(body: Document, check: Validation, requester: UserId) returns (r: Response<Document>)
      requires Valid()
      modifies this
      ensures Valid()
      ensures !check.isValid ==> r == Fail(400, check.errors) && profiles == old(profiles)
      ensures check.isValid && ProfileFieldsOf(body, requester).Threw? ==>
        r == ServerError && profiles == old(profiles)
      ensures check.isValid && ProfileFieldsOf(body, requester).Normal? ==>
        var pf := ProfileFieldsOf(body, requester).value;
        if requester in old(profiles) then
          && profiles == old(profiles)[requester := SetFields(old(profiles)[requester], pf)]
          && r == Json(profiles[requester])
        else
          && profiles == old(profiles)[requester := pf]
          && r == if HandleTaken(old(profiles), Get(pf, "handle"))
                  then Fail(400, check.errors["handle" := HandleTakenMessage])
                  else Json(pf)
    {
      if !check.isValid {
        return Fail(400, check.errors);
      }
      var built := BuildProfileFields(body, requester);
      if built.Threw? {
        return ServerError;
      }
      var pf := built.value;
      if requester in profiles {
        r := Update(requester, pf);
      } else {
        r := CreateAsWritten(requester, pf, check.errors);
      }
    }
  }

  /** The as-written create path lets two users hold the same handle: user "b"
      creates a profile with the handle "h" that user "a" already has. */
  method DuplicateHandleAsWritten() returns (store: ProfileStore, r: Response<Document>)
    ensures !UniqueHandles(store.profiles)
    ensures r.Fail? && r.status == 400
  {
    store := new ProfileStore();
    var first := store.Create("a", map["user" := Str("a"), "handle" := Str("h")], map[]);
    assert store.profiles == map["a" := map["user" := Str("a"), "handle" := Str("h")]];
    r := store.CreateAsWritten("b", map["user" := Str("b"), "handle" := Str("h")], map[]);
    assert Get(store.profiles["a"], "handle") == Get(store.profiles["b"], "handle");
  }

  /** The update path performs no handle check, so it can copy another user's
      handle even under the corrected create path. */
  method DuplicateHandleByUpdate() returns (store: ProfileStore)
    ensures !UniqueHandles(store.profiles)
  {
    store := new ProfileStore();
    var first := store.Create("a", map["user" := Str("a"), "handle" := Str("h")], map[]);
    assert store.profiles == map["a" := map["user" := Str("a"), "handle" := Str("h")]];
    var second := store.Create("b", map["user" := Str("b"), "handle" := Str("g")], map[]);
    var third := store.Update("b", map["user" := Str("b"), "handle" := Str("h")]);
    assert Get(store.profiles["a"], "handle") == Get(store.profiles["b"], "handle");
  }
}
