/**
 * The travel-preferences screen (src/screens/EditPreferencesScreen.tsx):
 * the form starts from the user's saved preferences, the interest chips
 * toggle, the style, budget and pace choices each replace one field, and
 * saving hands the whole form to `updateProfile` with the user's name and
 * avatar. Whether `updateProfile` succeeded is a parameter.
 */
module EditPreferences {
  import opened Wrappers
  import opened Text
  import opened Lists
  import opened Alerts

  /** The preferences as the session's user record holds them; absent fields are `None`. */
  datatype SavedPreferences = SavedPreferences(
    travelStyle: Option<string>,
    interests: Option<seq<string>>,
    budgetLevel: Option<string>,
    pace: Option<string>)

  /** The parts of the signed-in user the screen reads. */
  datatype Account = Account(name: Option<string>, avatar: Option<string>, preferences: Option<SavedPreferences>)

  /** The form. */
  datatype Preferences = Preferences(travelStyle: string, interests: seq<string>, budgetLevel: string, pace: string)

  /** What `updateProfile` is given. */
  datatype ProfileRequest = ProfileRequest(name: string, avatar: Option<string>, preferences: Preferences)

  const Saved: Alert := Alert("Sucesso", "Preferências salvas!")
  const SaveFailure: Alert := Alert("Erro", "Erro ao salvar preferências")

  /** The initial form: each saved field, `''` (or no interests) where the user or the field is missing. */
  function InitialPreferences(user: Option<Account>): (form: Preferences)
    ensures user.None? || user.value.preferences.None? ==> form == Preferences("", [], "", "")
    ensures user.Some? && user.value.preferences.Some? ==>
      var saved := user.value.preferences.value;
      form.travelStyle == OrDefault(saved.travelStyle, "")
      && form.interests == saved.interests.GetOr([])
      && form.budgetLevel == OrDefault(saved.budgetLevel, "")
      && form.pace == OrDefault(saved.pace, "")
  {
    if user.Some? && user.value.preferences.Some? then
      var saved := user.value.preferences.value;
      Preferences(OrDefault(saved.travelStyle, ""), saved.interests.GetOr([]), OrDefault(saved.budgetLevel, ""), OrDefault(saved.pace, ""))
    else
      Preferences("", [], "", "")
  }

  /** The form saved, read back as the user's preferences, gives the same form. */
  lemma SavedFormReloads(name: Option<string>, avatar: Option<string>, form: Preferences)
    ensures InitialPreferences(Some(Account(name, avatar, Some(SavedPreferences(
      Some(form.travelStyle), Some(form.interests), Some(form.budgetLevel), Some(form.pace)))))) == form
  {
  }

  class PreferencesScreen {
    const user: Option<Account>
    var preferences: Preferences
    var saving: bool

    constructor (user: Option<Account>)
      ensures this.user == user && preferences == InitialPreferences(user) && !saving
    {
      this.user := user;
      preferences := InitialPreferences(user);
      saving := false;
    }

    /** `toggleInterest`: only the interests change; toggling an absent interest twice gives the list back. */
    method ToggleInterest(interest: string)
      modifies this`preferences
      ensures preferences == old(preferences).(interests := Toggle(old(preferences).interests, interest))
      ensures interest in preferences.interests <==> interest !in old(preferences).interests
      ensures forall y :: y != interest ==> multiset(preferences.interests)[y] == multiset(old(preferences).interests)[y]
      ensures interest !in old(preferences).interests ==> Toggle(preferences.interests, interest) == old(preferences).interests
    {
      ToggleKeepsOthers(preferences.interests, interest);
      if interest !in preferences.interests {
        ToggleTwiceRestores(preferences.interests, interest);
      }
      preferences := preferences.(interests := Toggle(preferences.interests, interest));
    }

    /** The travel-style chips: only the style changes. */
    method ChooseTravelStyle(value: string)
      modifies this`preferences
      ensures preferences == old(preferences).(travelStyle := value)
    {
      preferences := preferences.(travelStyle := value);
    }

    /** The budget chips: only the budget level changes. */
    method ChooseBudgetLevel(value: string)
      modifies this`preferences
      ensures preferences == old(preferences).(budgetLevel := value)
    {
      preferences := preferences.(budgetLevel := value);
    }

    /** The pace chips: only the pace changes. */
    method ChoosePace(value: string)
      modifies this`preferences
      ensures preferences == old(preferences).(pace := value)
    {
      preferences := preferences.(pace := value);
    }

    /**
     * `handleSave`: the form goes out with the user's name (`''` when
     * missing) and avatar untouched; the alert says how it went and saving
     * is over either way.
     */
    method HandleSave(succeeded: bool) returns (sent: ProfileRequest, alert: Alert)
      modifies this`saving
      ensures sent.preferences == preferences
      ensures sent.name == (if user.Some? then OrDefault(user.value.name, "") else "")
      ensures sent.avatar == (if user.Some? then user.value.avatar else None)
      ensures alert == (if succeeded then Saved else SaveFailure)
      ensures !saving
    {
      saving := true;
      var name := if user.Some? then OrDefault(user.value.name, "") else "";
      var avatar := if user.Some? then user.value.avatar else None;
      sent := ProfileRequest(name, avatar, preferences);
      alert := if succeeded then Saved else SaveFailure;
      saving := false;
    }
  }
}
