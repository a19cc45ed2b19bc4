/** The edit-profile form: how a fetched profile becomes form state, how the
    form state becomes the submitted payload, and the two single-field state
    updates (typing into a field, toggling the social inputs). */
module EditProfileForm {
  import opened Js
  import Profiles

  /** The thirteen form fields, in state and in the payload. */
  const FormFields: set<string> := {
    "handle", "company", "website", "location", "status", "skills", "githubUsername", "bio",
    "twitter", "facebook", "linkedin", "youtube", "instagram"}

  /** The profile fields that become "" when empty. */
  const BlankedFields: set<string> := {"company", "website", "location", "githubUsername", "bio"}

  /** The social links, read from `profile.social` and copied to the top level. */
  const SocialLinks: set<string> := {"twitter", "facebook", "linkedin", "youtube", "instagram"}

  /** The state the constructor sets: every form field "", the social inputs
      hidden and no errors. */
  function InitialState(): (r: map<string, Value>)
    ensures r.Keys == FormFields + {"displaySocialInputs", "errors"}
    ensures forall k :: k in FormFields ==> r[k] == Str("")
    ensures r["displaySocialInputs"] == Bool(false) && r["errors"] == Obj(map[])
  {
    map["displaySocialInputs" := Bool(false),
        "handle" := Str(""), "company" := Str(""), "website" := Str(""),
        "location" := Str(""), "status" := Str(""), "skills" := Str(""),
        "githubUsername" := Str(""), "bio" := Str(""), "twitter" := Str(""),
        "facebook" := Str(""), "linkedin" := Str(""), "youtube" := Str(""),
        "instagram" := Str(""), "errors" := Obj(map[])]
  }

  /** The profile once the fields in `done` have been blanked when empty. */
  function BlankedFor(p: map<string, Value>, done: set<string>, isEmpty: Value -> bool): map<string, Value> {
    p + map k | k in done :: OrBlank(Get(p, k), isEmpty)
  }

  /** The profile once the links in `done` have been copied out of `social`. */
  function LinkedFor(p: map<string, Value>, social: Value, done: set<string>, isEmpty: Value -> bool)
    : map<string, Value>
    requires !social.Undefined? && !social.Null?
  {
    p + map k | k in done :: OrBlank(Prop(social, k), isEmpty)
  }

  /** The profile after lines 54-59: each of company, website, location,
      githubUsername and bio blanked when empty, and `social` replaced by {}
      when empty. */
  function Defaulted(p: map<string, Value>, isEmpty: Value -> bool): (r: map<string, Value>)
    ensures r.Keys == p.Keys + BlankedFields + {"social"}
    ensures forall k :: k in BlankedFields ==> r[k] == OrBlank(Get(p, k), isEmpty)
    ensures r["social"] == if !isEmpty(Get(p, "social")) then Get(p, "social") else Obj(map[])
    ensures forall k :: k in p && k !in BlankedFields && k != "social" ==> r[k] == p[k]
  {
    BlankedFor(p, BlankedFields, isEmpty)["social" :=
      if !isEmpty(Get(p, "social")) then Get(p, "social") else Obj(map[])]
  }

  /** Reading `profile.social.link` throws only when `social` is undefined or
      null; `isEmpty` keeps an undefined or null `social` only if it calls
      them non-empty. */
  predicate SocialReadable(p: map<string, Value>) {
    var social := Get(p, "social");
    !social.Undefined? && !social.Null?
  }

  /** The profile after lines 60-64: each social link copied to the top level,
      "" when empty. */
  function Linked(p: map<string, Value>, isEmpty: Value -> bool): (r: map<string, Value>)
    requires SocialReadable(p)
    ensures r.Keys == p.Keys + SocialLinks
    ensures forall k :: k in SocialLinks ==> r[k] == OrBlank(Prop(Get(p, "social"), k), isEmpty)
    ensures forall k :: k in p && k !in SocialLinks ==> r[k] == p[k]
  {
    LinkedFor(p, Get(p, "social"), SocialLinks, isEmpty)
  }

  /** The object handed to `setState` on lines 67-81: the joined skills and
      twelve fields read from the rewritten profile. */
  function FormOf(p: map<string, Value>, skillsCSV: string): (r: map<string, Value>)
    ensures r.Keys == FormFields
    ensures r["skills"] == Str(skillsCSV)
    ensures forall k :: k in FormFields && k != "skills" ==> r[k] == Get(p, k)
  {
    map k | k in FormFields :: if k == "skills" then Str(skillsCSV) else Get(p, k)
  }

  /** The form fields a received profile turns into, or Threw when
      `profile.skills.join` or `profile.social.link` throws. */
  function ProfileToForm(p: map<string, Value>, isEmpty: Value -> bool): (r: Completion<map<string, Value>>)
    ensures r.Threw? <==> !Get(p, "skills").List? || !SocialReadable(Defaulted(p, isEmpty))
    ensures r.Normal? ==> r.value.Keys == FormFields
    ensures r.Normal? ==> r.value["skills"] == Str(JoinWithComma(Get(p, "skills").items))
    ensures r.Normal? ==> r.value["handle"] == Get(p, "handle") && r.value["status"] == Get(p, "status")
    ensures r.Normal? ==> forall k :: k in BlankedFields ==> r.value[k] == OrBlank(Get(p, k), isEmpty)
    ensures r.Normal? ==> forall k :: k in SocialLinks ==>
      r.value[k] == OrBlank(Prop(Defaulted(p, isEmpty)["social"], k), isEmpty)
  {
    var skills := Get(p, "skills");
    if !skills.List? then Threw
    else
      var d := Defaulted(p, isEmpty);
      if !SocialReadable(d) then Threw
      else
        var l := Linked(d, isEmpty);
        Disjoint();
        PassThrough(p, isEmpty, "handle");
        PassThrough(p, isEmpty, "status");
        Normal(FormOf(l, JoinWithComma(skills.items)))
  }

  /** `this.setState({ errors: nextProps.errors })` when the errors are truthy. */
  function WithErrors(state: map<string, Value>, errors: Value): (r: map<string, Value>)
    ensures Truthy(errors) ==> r == state["errors" := errors]
    ensures !Truthy(errors) ==> r == state
  {
    if Truthy(errors) then state["errors" := errors] else state
  }

  /** `onSubmit`: the payload holds exactly the thirteen form fields of the
      state, never `errors` or `displaySocialInputs`. */
  function PayloadOf(state: map<string, Value>): (r: map<string, Value>)
    ensures r.Keys == FormFields
    ensures "errors" !in r && "displaySocialInputs" !in r
    ensures forall k :: k in r ==> r[k] == Get(state, k)
  {
    map k | k in FormFields :: Get(state, k)
  }

  /** The component's state. */
  class EditProfile {
    var state: map<string, Value>

    constructor ()
      ensures state == InitialState()
    {
      state := InitialState();
    }

    /** `componentWillReceiveProps`: record truthy errors; then, when a profile
        arrived, rewrite its fields in place and load the form from them.
        `threw` is true when the profile's skills are not an array or its
        social object cannot be read; the form fields then keep their values. */
    method ReceiveProps(errors: Value, profile: JsObject?, isEmpty: Value -> bool) returns (threw: bool)
      modifies this, profile
      ensures profile == null ==> !threw && state == WithErrors(old(state), errors)
      ensures profile != null ==>
        && (threw <==> ProfileToForm(old(profile.fields), isEmpty).Threw?)
        && profile.fields == Rewritten(old(profile.fields), isEmpty)
        && state == if threw then WithErrors(old(state), errors)
                    else WithErrors(old(state), errors) + ProfileToForm(old(profile.fields), isEmpty).value
    {
      if Truthy(errors) {
        state := state["errors" := errors];
      }
      assert state == WithErrors(old(state), errors);
      if profile == null {
        return false;
      }
      var form := LoadProfile(profile, isEmpty);
      if form.Threw? {
        return true;
      }
      state := state + form.value;
      threw := false;
    }

    /** `onChange`: the field named by the event takes the typed value; every
        other field keeps its value. */
    method OnChange(name: string, value: string)
      modifies this
      ensures state.Keys == old(state).Keys + {name}
      ensures state[name] == Str(value)
      ensures forall k :: k in old(state) && k != name ==> state[k] == old(state)[k]
    {
      state := state[name := Str(value)];
    }

    /** The social-links button: `displaySocialInputs` becomes the negation of
        its previous value. */
    method ToggleSocialInputs()
      modifies this
      ensures state == Toggled(old(state))
    {
      state := state["displaySocialInputs" := Bool(!Truthy(Get(state, "displaySocialInputs")))];
    }
  }

  /** The received profile after lines 51-64 ran as far as they got: untouched
      when `skills.join` throws, defaulted when reading `social` throws, and
      fully rewritten otherwise. */
  function Rewritten(p: map<string, Value>, isEmpty: Value -> bool): (r: map<string, Value>)
    ensures p.Keys <= r.Keys
    ensures r.Keys <= p.Keys + BlankedFields + SocialLinks + {"social"}
    ensures !Get(p, "skills").List? ==> r == p
    ensures forall k :: k in p && k !in BlankedFields && k !in SocialLinks && k != "social" ==> r[k] == p[k]
    ensures Get(p, "skills").List? ==> BlankedFields + {"social"} <= r.Keys
    ensures Get(p, "skills").List? ==> r["social"] == Defaulted(p, isEmpty)["social"]
    ensures Get(p, "skills").List? && !SocialReadable(Defaulted(p, isEmpty)) ==> r == Defaulted(p, isEmpty)
    ensures Get(p, "skills").List? ==> forall k :: k in BlankedFields ==> r[k] == OrBlank(Get(p, k), isEmpty)
    ensures Get(p, "skills").List? && SocialReadable(Defaulted(p, isEmpty)) ==>
      SocialLinks <= r.Keys && forall k :: k in SocialLinks ==> r[k] == OrBlank(Prop(Defaulted(p, isEmpty)["social"], k), isEmpty)
  {
    Disjoint();
    if !Get(p, "skills").List? then p
    else if !SocialReadable(Defaulted(p, isEmpty)) then Defaulted(p, isEmpty)
    else Linked(Defaulted(p, isEmpty), isEmpty)
  }

  /** Lines 48-81 on a received profile: join the skills, rewrite the fields
      in place, and return the object passed to `setState`. */
  method LoadProfile(profile: JsObject, isEmpty: Value -> bool) returns (form: Completion<map<string, Value>>)
    modifies profile
    ensures form == ProfileToForm(old(profile.fields), isEmpty)
    ensures profile.fields == Rewritten(old(profile.fields), isEmpty)
  {
    ghost var p := profile.fields;
    var skills := Get(profile.fields, "skills");
    if !skills.List? {
      return Threw;
    }
    var skillsCSV := JoinWithComma(skills.items);
    ApplyDefaults(profile, isEmpty);
    var social := Get(profile.fields, "social");
    if social.Undefined? || social.Null? {
      return Threw;
    }
    CopyLinks(profile, isEmpty);
    form := Normal(FormOf(profile.fields, skillsCSV));
  }

  /** Lines 54-59 performed in place on the received profile. */
  method ApplyDefaults(profile: JsObject, isEmpty: Value -> bool)
    modifies profile
    ensures profile.fields == Defaulted(old(profile.fields), isEmpty)
  {
    ghost var p := profile.fields;
    BlankEmptyFields(profile, isEmpty);
    BlankStep(p, BlankedFields, "social", isEmpty, profile.fields);
    Disjoint();
    assert Get(profile.fields, "social") == Get(p, "social");
    profile.fields := profile.fields["social" := if !isEmpty(Get(profile.fields, "social")) then Get(profile.fields, "social") else Obj(map[])];
    assert profile.fields == BlankedFor(p, BlankedFields, isEmpty)["social" :=
      if !isEmpty(Get(p, "social")) then Get(p, "social") else Obj(map[])];
  }

  /** Lines 54-58: company, website, location, githubUsername and bio, each
      replaced by "" when empty. */
  method BlankEmptyFields(profile: JsObject, isEmpty: Value -> bool)
    modifies profile
    ensures profile.fields == BlankedFor(old(profile.fields), BlankedFields, isEmpty)
  {
    ghost var p := profile.fields;
    NothingBlanked(p, isEmpty);
    FieldNames();
    BlankField(profile, "company", isEmpty, p, {});
    BlankField(profile, "website", isEmpty, p, {} + {"company"});
    BlankField(profile, "location", isEmpty, p, {} + {"company"} + {"website"});
    BlankField(profile, "githubUsername", isEmpty, p, {} + {"company"} + {"website"} + {"location"});
    BlankField(profile, "bio", isEmpty, p, {} + {"company"} + {"website"} + {"location"} + {"githubUsername"});
    BlankedInOrder(p, isEmpty);
  }

  /** One line of 54-58: `profile.k = !isEmpty(profile.k) ? profile.k : ""`,
      extending the fields blanked so far by k. */
  method BlankField(profile: JsObject, k: string, isEmpty: Value -> bool,
                    ghost p: map<string, Value>, ghost done: set<string>)
    requires k !in done
    requires profile.fields == BlankedFor(p, done, isEmpty)
    modifies profile
    ensures profile.fields == BlankedFor(p, done + {k}, isEmpty)
  {
    BlankStep(p, done, k, isEmpty, profile.fields);
    profile.fields := profile.fields[k := OrBlank(Get(profile.fields, k), isEmpty)];
  }

  /** Lines 60-64 performed in place: each link read from `profile.social`. */
  method CopyLinks(profile: JsObject, isEmpty: Value -> bool)
    requires SocialReadable(profile.fields)
    modifies profile
    ensures profile.fields == Linked(old(profile.fields), isEmpty)
  {
    ghost var p := profile.fields;
    var social := Get(profile.fields, "social");
    ghost var done: set<string> := {};
    NothingLinked(p, social, isEmpty);
    LinkStep(p, social, done, "twitter", isEmpty);
    profile.fields := profile.fields["twitter" := OrBlank(Prop(social, "twitter"), isEmpty)];
    done := done + {"twitter"};
    assert profile.fields == LinkedFor(p, social, done, isEmpty);
    LinkStep(p, social, done, "facebook", isEmpty);
    profile.fields := profile.fields["facebook" := OrBlank(Prop(social, "facebook"), isEmpty)];
    done := done + {"facebook"};
    assert profile.fields == LinkedFor(p, social, done, isEmpty);
    LinkStep(p, social, done, "linkedin", isEmpty);
    profile.fields := profile.fields["linkedin" := OrBlank(Prop(social, "linkedin"), isEmpty)];
    done := done + {"linkedin"};
    assert profile.fields == LinkedFor(p, social, done, isEmpty);
    LinkStep(p, social, done, "youtube", isEmpty);
    profile.fields := profile.fields["youtube" := OrBlank(Prop(social, "youtube"), isEmpty)];
    done := done + {"youtube"};
    assert profile.fields == LinkedFor(p, social, done, isEmpty);
    LinkStep(p, social, done, "instagram", isEmpty);
    profile.fields := profile.fields["instagram" := OrBlank(Prop(social, "instagram"), isEmpty)];
    done := done + {"instagram"};
    assert profile.fields == LinkedFor(p, social, done, isEmpty);
    LinkedInOrder(p, social, isEmpty);
  }

  /** The key sets, spelled out in the order the component assigns them. */
  lemma FieldNames()
    ensures "website" !in {} + {"company"}
    ensures "location" !in {} + {"company"} + {"website"}
    ensures "githubUsername" !in {} + {"company"} + {"website"} + {"location"}
    ensures "bio" !in {} + {"company"} + {"website"} + {"location"} + {"githubUsername"}
    ensures {} + {"company"} + {"website"} + {"location"} + {"githubUsername"} + {"bio"} == BlankedFields
    ensures {} + {"twitter"} + {"facebook"} + {"linkedin"} + {"youtube"} + {"instagram"} == SocialLinks
  {
  }

  /** No field is both blanked and a copied link, and `skills` is neither. */
  lemma Disjoint()
    ensures BlankedFields !! SocialLinks
    ensures "skills" !in BlankedFields && "skills" !in SocialLinks
    ensures "handle" !in SocialLinks && "status" !in SocialLinks
    ensures "social" !in SocialLinks && "social" !in BlankedFields
    ensures "handle" !in BlankedFields && "status" !in BlankedFields
    ensures "handle" in FormFields && "status" in FormFields && "skills" in FormFields
    ensures BlankedFields <= FormFields && SocialLinks <= FormFields
  {
  }

  /** `handle` and `status` pass through the rewrite untouched. */
  lemma PassThrough(p: map<string, Value>, isEmpty: Value -> bool, k: string)
    requires SocialReadable(Defaulted(p, isEmpty))
    requires k == "handle" || k == "status"
    ensures Get(Linked(Defaulted(p, isEmpty), isEmpty), k) == Get(p, k)
  {
    Disjoint();
  }

  /** The fields blanked one by one are the blanked fields. */
  lemma BlankedInOrder(p: map<string, Value>, isEmpty: Value -> bool)
    ensures BlankedFor(p, {} + {"company"} + {"website"} + {"location"} + {"githubUsername"} + {"bio"}, isEmpty)
         == BlankedFor(p, BlankedFields, isEmpty)
  {
    FieldNames();
  }

  /** The links copied one by one are the social links. */
  lemma LinkedInOrder(p: map<string, Value>, social: Value, isEmpty: Value -> bool)
    requires !social.Undefined? && !social.Null?
    ensures LinkedFor(p, social, {} + {"twitter"} + {"facebook"} + {"linkedin"} + {"youtube"} + {"instagram"}, isEmpty)
         == LinkedFor(p, social, SocialLinks, isEmpty)
  {
    FieldNames();
  }

  lemma NothingBlanked(p: map<string, Value>, isEmpty: Value -> bool)
    ensures BlankedFor(p, {}, isEmpty) == p
  {
    assert (map k | k in {} :: OrBlank(Get(p, k), isEmpty)) == map[];
  }

  lemma NothingLinked(p: map<string, Value>, social: Value, isEmpty: Value -> bool)
    requires !social.Undefined? && !social.Null?
    ensures LinkedFor(p, social, {}, isEmpty) == p
  {
  }

  /** Blanking one more field k reads k as it was in the original profile. */
  lemma BlankStep(p: map<string, Value>, done: set<string>, k: string, isEmpty: Value -> bool,
                  cur: map<string, Value>)
    requires k !in done
    requires cur == BlankedFor(p, done, isEmpty)
    ensures Get(cur, k) == Get(p, k)
    ensures cur[k := OrBlank(Get(cur, k), isEmpty)] == BlankedFor(p, done + {k}, isEmpty)
  {
  }

  /** Copying one more link k extends the links copied so far. */
  lemma LinkStep(p: map<string, Value>, social: Value, done: set<string>, k: string, isEmpty: Value -> bool)
    requires !social.Undefined? && !social.Null?
    ensures LinkedFor(p, social, done, isEmpty)[k := OrBlank(Prop(social, k), isEmpty)]
         == LinkedFor(p, social, done + {k}, isEmpty)
  {
  }

  /** `setState(prev => ({ displaySocialInputs: !prev.displaySocialInputs }))`. */
  function Toggled(state: map<string, Value>): (r: map<string, Value>)
    ensures r.Keys == state.Keys + {"displaySocialInputs"}
    ensures r["displaySocialInputs"] == Bool(!Truthy(Get(state, "displaySocialInputs")))
    ensures forall k :: k in state && k != "displaySocialInputs" ==> r[k] == state[k]
  {
    state["displaySocialInputs" := Bool(!Truthy(Get(state, "displaySocialInputs")))]
  }

  /** Toggling twice restores a boolean `displaySocialInputs` and everything else. */
  lemma ToggleTwice(state: map<string, Value>)
    requires Get(state, "displaySocialInputs").Bool?
    ensures Toggled(Toggled(state)) == state
  {
    assert Toggled(Toggled(state))["displaySocialInputs"] == state["displaySocialInputs"];
  }

  /** Once a profile has been loaded, the payload is exactly the loaded form,
      whatever the state held before. */
  lemma {:induction false} PayloadOfLoadedForm(state: map<string, Value>, form: map<string, Value>)
    requires form.Keys == FormFields
    ensures PayloadOf(state + form) == form
  {
    forall k | k in FormFields
      ensures PayloadOf(state + form)[k] == form[k]
    {
      assert Get(state + form, k) == form[k];
    }
  }

  /** Skills saved by the server come back into the form as the very string
      that was submitted. */
  lemma SkillsRoundTripFromServer(body: map<string, Value>, requester: string, isEmpty: Value -> bool)
    requires Get(body, "skills").Str?
    ensures Profiles.ProfileFieldsOf(body, requester).Normal?
    ensures var stored := Profiles.ProfileFieldsOf(body, requester).value;
      && ProfileToForm(stored, isEmpty).Normal?
      && ProfileToForm(stored, isEmpty).value["skills"] == body["skills"]
  {
    var stored := Profiles.ProfileFieldsOf(body, requester).value;
    assert Get(stored, "skills") == List(SplitOnComma(body["skills"].s));
    assert Get(stored, "social").Obj?;
    assert SocialReadable(Defaulted(stored, isEmpty));
    JoinSplit(body["skills"].s);
  }

  /** A profile whose skills are comma-free and not empty gets the same skills
      back when its form is submitted unchanged. */
  lemma SkillsRoundTripFromForm(profile: map<string, Value>, state: map<string, Value>,
                                requester: string, isEmpty: Value -> bool)
    requires ProfileToForm(profile, isEmpty).Normal?
    requires |Get(profile, "skills").items| >= 1
    requires forall i :: 0 <= i < |Get(profile, "skills").items| ==> ',' !in Get(profile, "skills").items[i]
    ensures var body := PayloadOf(state + ProfileToForm(profile, isEmpty).value);
      && Profiles.ProfileFieldsOf(body, requester).Normal?
      && Profiles.ProfileFieldsOf(body, requester).value["skills"] == Get(profile, "skills")
  {
    var form := ProfileToForm(profile, isEmpty).value;
    PayloadOfLoadedForm(state, form);
    SplitJoin(Get(profile, "skills").items);
  }

  /** The round trip does not preserve an empty skills list: it joins to "",
      which the server splits into one empty skill. */
  lemma EmptySkillsComeBackAsOneBlank(profile: map<string, Value>, state: map<string, Value>,
                                      requester: string, isEmpty: Value -> bool)
    requires ProfileToForm(profile, isEmpty).Normal?
    requires Get(profile, "skills") == List([])
    ensures var body := PayloadOf(state + ProfileToForm(profile, isEmpty).value);
      Profiles.ProfileFieldsOf(body, requester).value["skills"] == List([""])
  {
    PayloadOfLoadedForm(state, ProfileToForm(profile, isEmpty).value);
  }

  /** Under the `is-empty` contract only non-array skills make loading a
      profile throw: an empty `social` becomes {} and reads cleanly. */
  lemma LoadThrowsOnlyOnSkills(p: map<string, Value>, isEmpty: Value -> bool)
    requires IsEmptyContract(isEmpty)
    ensures ProfileToForm(p, isEmpty).Threw? <==> !Get(p, "skills").List?
  {
    var social := Get(p, "social");
    if social.Undefined? || social.Null? {
      assert isEmpty(social);
    }
  }
}
