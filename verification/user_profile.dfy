/**
 * The profile editor: a profile record fetched whole, edited field by field
 * and through the concern checkboxes, and patched back whole, with one
 * notification (message, severity, open) for fetch and submit outcomes.
 */
module UserProfile {
  import opened Js
  import opened Gateway
  import opened Feedback
  import opened Concerns

  const NotSpecified := "Not specified"
  const NoDescription := "No description available."
  const FetchFailedMessage := "Failed to fetch user data"
  const UpdatedMessage := "Profile updated successfully!"
  const UpdateFailedMessage := "Failed to update profile"
  const ProfileUrlPrefix := "/user/profile/"

  /** The working copy of the profile. */
  datatype Profile = Profile(
    username: string,
    name: string,
    email: string,
    age: string,
    gender: string,
    placeOfResidence: string,
    fieldOfWork: string,
    mentalHealthConcerns: seq<Tag>)

  /** The scalar fields of a profile, by the names the inputs carry. */
  datatype ProfileField = Username | Name | Email | Age | Gender | PlaceOfResidence | FieldOfWork

  /** A fetched profile body: every field may be absent. */
  datatype RawProfile = RawProfile(
    username: Option<string>,
    name: Option<string>,
    email: Option<string>,
    age: Option<string>,
    gender: Option<string>,
    placeOfResidence: Option<string>,
    fieldOfWork: Option<string>,
    mentalHealthConcerns: Option<seq<Tag>>)

  /** A stressor checkbox: the caption shown and the tag stored. */
  datatype Stressor = Stressor(caption: string, value: Tag)

  const Stressors: seq<Stressor> := [
    Stressor("Stress from Job Search", "job_search"),
    Stressor("Stress from Classwork", "classwork"),
    Stressor("Social Anxiety", "social_anxiety"),
    Stressor("Impostor Syndrome", "impostor_syndrome"),
    Stressor("Career Drift", "career_drift")
  ]

  /** The tags of the catalog. */
  function CatalogTags(): set<Tag>
  {
    {"job_search", "classwork", "social_anxiety", "impostor_syndrome", "career_drift"}
  }

  function EmptyProfile(): Profile
  {
    Profile("", "", "", "", "", "", "", [])
  }

  function Get(p: Profile, f: ProfileField): string
  {
    match f
    case Username => p.username
    case Name => p.name
    case Email => p.email
    case Age => p.age
    case Gender => p.gender
    case PlaceOfResidence => p.placeOfResidence
    case FieldOfWork => p.fieldOfWork
  }

  function RawGet(raw: RawProfile, f: ProfileField): Option<string>
  {
    match f
    case Username => raw.username
    case Name => raw.name
    case Email => raw.email
    case Age => raw.age
    case Gender => raw.gender
    case PlaceOfResidence => raw.placeOfResidence
    case FieldOfWork => raw.fieldOfWork
  }

  /** What a falsy fetched field becomes. */
  function DefaultOf(f: ProfileField): string
  {
    if f == PlaceOfResidence || f == FieldOfWork then NotSpecified else ""
  }

  /** A profile seen as a fetched body with every field present. */
  function AsRaw(p: Profile): RawProfile
  {
    RawProfile(Some(p.username), Some(p.name), Some(p.email), Some(p.age), Some(p.gender),
               Some(p.placeOfResidence), Some(p.fieldOfWork), Some(p.mentalHealthConcerns))
  }

  /** The `formattedData` built from a fetched body. */
  function Normalize(raw: RawProfile): (p: Profile)
    ensures forall f :: Truthy(RawGet(raw, f)) ==> Get(p, f) == RawGet(raw, f).value
    ensures forall f :: !Truthy(RawGet(raw, f)) ==> Get(p, f) == DefaultOf(f)
    ensures p.placeOfResidence != "" && p.fieldOfWork != ""
    ensures raw.mentalHealthConcerns.Some? ==> p.mentalHealthConcerns == raw.mentalHealthConcerns.value
    ensures raw.mentalHealthConcerns.None? ==> p.mentalHealthConcerns == []
  {
    Profile(
      OrElse(raw.username, ""),
      OrElse(raw.name, ""),
      OrElse(raw.email, ""),
      OrElse(raw.age, ""),
      OrElse(raw.gender, ""),
      OrElse(raw.placeOfResidence, NotSpecified),
      OrElse(raw.fieldOfWork, NotSpecified),
      match raw.mentalHealthConcerns
      case Some(c) => c
      case None => [])
  }

  /** `handleChange`: `{ ...prev, [name]: value }`. */
  function Change(p: Profile, f: ProfileField, value: string): (r: Profile)
    ensures Get(r, f) == value
    ensures forall g :: g != f ==> Get(r, g) == Get(p, g)
    ensures r.mentalHealthConcerns == p.mentalHealthConcerns
  {
    match f
    case Username => p.(username := value)
    case Name => p.(name := value)
    case Email => p.(email := value)
    case Age => p.(age := value)
    case Gender => p.(gender := value)
    case PlaceOfResidence => p.(placeOfResidence := value)
    case FieldOfWork => p.(fieldOfWork := value)
  }

  /** `handleMentalHealthChange`: only the concern list changes. */
  function ToggleConcern(p: Profile, name: Tag, checked: bool): (r: Profile)
    ensures forall f :: Get(r, f) == Get(p, f)
    ensures r.mentalHealthConcerns == Toggle(p.mentalHealthConcerns, name, checked)
  {
    p.(mentalHealthConcerns := Toggle(p.mentalHealthConcerns, name, checked))
  }

  const JobSearchDescription := "Feelings of stress stemming from the job search process."
  const ClassworkDescription := "Stress related to managing coursework and academic responsibilities."
  const SocialAnxietyDescription :=
    "Anxiety experienced during social interactions or in anticipation of social interactions."
  const ImpostorSyndromeDescription :=
    "Persistent doubt concerning one's abilities or accomplishments coupled with a fear of being exposed as a fraud."
  const CareerDriftDescription := "Stress from uncertainty or dissatisfaction with one's career path or progress."

  /** `getStressorDescription`: a text of its own for each catalog tag, a fallback otherwise. */
  function StressorDescription(id: Tag): (d: string)
    ensures d != NoDescription <==> id in CatalogTags()
  {
    assert |NoDescription| == 25 && |JobSearchDescription| == 56 && |ClassworkDescription| == 68;
    assert |SocialAnxietyDescription| == 89 && |ImpostorSyndromeDescription| == 111;
    assert |CareerDriftDescription| == 78;
    if id == "job_search" then JobSearchDescription
    else if id == "classwork" then ClassworkDescription
    else if id == "social_anxiety" then SocialAnxietyDescription
    else if id == "impostor_syndrome" then ImpostorSyndromeDescription
    else if id == "career_drift" then CareerDriftDescription
    else NoDescription
  }

  /**
   * Every checkbox of the catalog stores a catalog tag, so each has its own
   * description, and no two share one.
   */
  lemma CatalogDescriptions()
    ensures forall i :: 0 <= i < |Stressors| ==> Stressors[i].value in CatalogTags()
    ensures forall i :: 0 <= i < |Stressors| ==> StressorDescription(Stressors[i].value) != NoDescription
    ensures forall i, j :: 0 <= i < j < |Stressors| ==>
      StressorDescription(Stressors[i].value) != StressorDescription(Stressors[j].value)
  {
  }

  /** Normalising a normalised profile changes nothing. */
  lemma NormalizeIdempotent(raw: RawProfile)
    ensures Normalize(AsRaw(Normalize(raw))) == Normalize(raw)
  {
  }

  class ProfileEditor {
    const userId: Option<string>
    var user: Profile
    var message: string
    var severity: Severity
    var open: bool

    constructor (userId: Option<string>)
      ensures this.userId == userId && user == EmptyProfile()
      ensures message == "" && severity == Info && !open
    {
      this.userId := userId;
      user := Profile("", "", "", "", "", "", "", []);
      message, severity, open := "", Info, false;
    }

    /**
     * The mount effect, with `reply` the outcome of the read if one is
     * issued. Without a user id nothing is read and nothing changes.
     */
    method Fetch(reply: Response<RawProfile>) returns (readUrl: Option<string>)
      modifies this
      ensures !Truthy(userId) ==> readUrl.None? && unchanged(this)
      ensures Truthy(userId) ==> readUrl == Some(ProfileUrlPrefix + userId.value)
      ensures Truthy(userId) && reply.Ok? ==>
        user == Normalize(reply.data) && message == old(message) && severity == old(severity) && open == old(open)
      ensures Truthy(userId) && reply.Err? ==>
        user == old(user) && message == FetchFailedMessage && severity == Error && open
    {
      if !Truthy(userId) {
        return None;
      }
      readUrl := Some(ProfileUrlPrefix + TemplateText(userId));
      match reply {
        case Ok(data) =>
          user := Normalize(data);
        case Err(_) =>
          message := FetchFailedMessage;
          severity := Error;
          open := true;
      }
    }

    method HandleChange(f: ProfileField, value: string)
      modifies this`user
      ensures user == Change(old(user), f, value)
    {
      user := Change(user, f, value);
    }

    method HandleMentalHealthChange(name: Tag, checked: bool)
      modifies this`user
      ensures user == ToggleConcern(old(user), name, checked)
    {
      user := ToggleConcern(user, name, checked);
    }

    /**
     * Saving: the whole working profile is patched, and the notification is
     * opened with the outcome.
     */
    method Submit(reply: Response<()>) returns (request: Request<Profile>)
      modifies this`message, this`severity, this`open
      ensures request == Request(Patch, ProfileUrlPrefix + TemplateText(userId), user)
      ensures open
      ensures reply.Ok? ==> message == UpdatedMessage && severity == Success
      ensures reply.Err? ==> message == UpdateFailedMessage && severity == Error
    {
      request := Request(Patch, ProfileUrlPrefix + TemplateText(userId), user);
      match reply {
        case Ok(_) =>
          message := UpdatedMessage;
          severity := Success;
        case Err(_) =>
          message := UpdateFailedMessage;
          severity := Error;
      }
      open := true;
    }

    method HandleClose()
      modifies this`open
      ensures !open
    {
      open := false;
    }
  }

  /**
   * The profile after a sequence of clicks on concern checkboxes, each
   * reporting the negation of the `includes` state it shows.
   */
  function ClickConcerns(p: Profile, clicks: seq<Tag>): Profile
    decreases |clicks|
  {
    if clicks == [] then p
    else
      var t := clicks[0];
      ClickConcerns(ToggleConcern(p, t, !IsChecked(p.mentalHealthConcerns, t)), clicks[1..])
  }

  /**
   * Clicking catalog checkboxes in any order leaves every scalar field as it
   * was, and keeps a duplicate-free, catalog-only concern list that way.
   */
  lemma {:induction false} CatalogClicksKeepConcernsValid(p: Profile, clicks: seq<Tag>)
    requires NoDuplicates(p.mentalHealthConcerns) && AllIn(p.mentalHealthConcerns, CatalogTags())
    requires AllIn(clicks, CatalogTags())
    ensures forall f :: Get(ClickConcerns(p, clicks), f) == Get(p, f)
    ensures NoDuplicates(ClickConcerns(p, clicks).mentalHealthConcerns)
    ensures AllIn(ClickConcerns(p, clicks).mentalHealthConcerns, CatalogTags())
    decreases |clicks|
  {
    if clicks != [] {
      var t := clicks[0];
      var q := ToggleConcern(p, t, !IsChecked(p.mentalHealthConcerns, t));
      assert q.mentalHealthConcerns == Click(p.mentalHealthConcerns, t);
      ClickPreserves(p.mentalHealthConcerns, t, CatalogTags());
      assert AllIn(clicks[1..], CatalogTags()) by {
        forall x | x in clicks[1..] ensures x in CatalogTags() {
          assert x in clicks;
        }
      }
      CatalogClicksKeepConcernsValid(q, clicks[1..]);
    }
  }
}
