/**
 * The profile screen (src/screens/ProfileScreen.tsx): the travel statistics
 * computed from the user's itineraries, the edit-profile and
 * change-password forms with their guards, and the interest toggle of the
 * preferences modal.
 */
module Profile {
  import opened Wrappers
  import opened Text
  import opened Lists
  import opened Alerts
  import opened Itineraries
  import Dashboard

  const NoItinerary: string := "Nenhum roteiro ainda"
  const Completed: string := "concluido"

  datatype Stats = Stats(total: int, completed: int, countries: int, lastItinerary: string)

  const EmptyStats: Stats := Stats(0, 0, 0, NoItinerary)

  function IsCompleted(): Itinerary -> bool {
    (i: Itinerary) => i.status == Completed
  }

  /** A destination country that counts: present and non-empty. */
  predicate HasCountry(i: Itinerary) {
    CountryOf(i).Some? && CountryOf(i).value != ""
  }

  /** The distinct countries visited: `new Set(... .map(i => i.destination.country))`. */
  function CountrySet(items: seq<Itinerary>): set<string> {
    set k | 0 <= k < |items| && HasCountry(items[k]) :: CountryOf(items[k]).value
  }

  /** The statistics card: empty stats for no itinerary, else counts over the list and the first title. */
  function StatsOf(items: seq<Itinerary>): Stats {
    if |items| == 0 then EmptyStats
    else Stats(|items|, |Filter(items, IsCompleted())|, |CountrySet(items)|, items[0].title)
  }

  /** There are never more distinct countries than itineraries. */
  lemma {:induction false} CountriesBound(items: seq<Itinerary>)
    ensures |CountrySet(items)| <= |items|
  {
    if items != [] {
      var rest := items[1..];
      CountriesBound(rest);
      var first: set<string> := if HasCountry(items[0]) then {CountryOf(items[0]).value} else {};
      assert CountrySet(items) <= CountrySet(rest) + first by {
        forall c | c in CountrySet(items) ensures c in CountrySet(rest) + first {
          var k :| 0 <= k < |items| && HasCountry(items[k]) && CountryOf(items[k]).value == c;
          if k > 0 {
            assert rest[k - 1] == items[k];
          }
        }
      }
      SubsetCard(CountrySet(items), CountrySet(rest) + first);
    }
  }

  lemma SubsetCard(a: set<string>, b: set<string>)
    requires a <= b
    ensures |a| <= |b|
  {
    assert b == a + (b - a);
  }

  /** A country is counted exactly when some itinerary has it as its destination country. */
  lemma CountrySetMembers(items: seq<Itinerary>, c: string)
    ensures c in CountrySet(items) <==> exists k :: 0 <= k < |items| && CountryOf(items[k]) == Some(c) && c != ""
  {
    if c in CountrySet(items) {
      var k :| 0 <= k < |items| && HasCountry(items[k]) && CountryOf(items[k]).value == c;
      assert CountryOf(items[k]) == Some(c);
    }
  }

  /** The statistics of a non-empty list: its length, at most that many completed trips and countries, and the first title. */
  lemma StatsBounds(items: seq<Itinerary>)
    ensures items == [] ==> StatsOf(items) == EmptyStats
    ensures items != [] ==> StatsOf(items).total == |items| && StatsOf(items).lastItinerary == items[0].title
    ensures 0 <= StatsOf(items).completed <= StatsOf(items).total
    ensures 0 <= StatsOf(items).countries <= StatsOf(items).total
  {
    CountriesBound(items);
  }

  /** Completed trips are exactly the itineraries with status `concluido`. */
  lemma CompletedCounts(items: seq<Itinerary>)
    ensures StatsOf(items).completed + |Filter(items, (i: Itinerary) => i.status != Completed)| == |items|
  {
    FilterPartition(items, IsCompleted(), (i: Itinerary) => i.status != Completed);
    assert |multiset(Filter(items, IsCompleted()))| + |multiset(Filter(items, (i: Itinerary) => i.status != Completed))| == |multiset(items)|;
  }

  /** The signed-in user as the screen reads it. */
  datatype User = User(name: Option<string>, avatar: Option<string>)

  const EnterName: Alert := Alert("Erro", "Digite seu nome")
  const ProfileUpdated: Alert := Alert("Sucesso", "Perfil atualizado com sucesso!")
  const ProfileFailure: string := "Erro ao atualizar perfil"
  const FillAll: Alert := Alert("Erro", "Preencha todos os campos")
  const Mismatch: Alert := Alert("Erro", "As senhas não coincidem")
  const TooShort: Alert := Alert("Erro", "A nova senha deve ter no mínimo 6 caracteres")
  const PasswordChanged: Alert := Alert("Sucesso", "Senha alterada com sucesso!")
  const PasswordFailure: string := "Erro ao alterar senha"

  /** What `updateProfile` is given by the edit form. */
  datatype ProfileUpdate = ProfileUpdate(name: string, avatar: Option<string>)

  /** What `updatePassword` is given. */
  datatype PasswordUpdate = PasswordUpdate(current: string, next: string)

  /** The name sent by `handleSaveProfile` is non-empty and has no white space at either end. */
  lemma SentNameTrimmed(name: string)
    requires !IsBlank(name)
    ensures Trim(name) != "" && !IsSpace(Trim(name)[0]) && !IsSpace(Trim(name)[|Trim(name)| - 1])
  {
    TrimHasNoOuterSpace(name);
  }

  /** The password guard: the first failing check's alert, `None` when all pass. */
  function PasswordRejection(current: string, next: string, confirm: string): Option<Alert> {
    if current == "" || next == "" || confirm == "" then Some(FillAll)
    else if next != confirm then Some(Mismatch)
    else if |next| < 6 then Some(TooShort)
    else None
  }

  /** The password reaches `updatePassword` exactly when all fields are filled, both entries agree and it has at least six characters. */
  lemma PasswordAccepted(current: string, next: string, confirm: string)
    ensures PasswordRejection(current, next, confirm).None? <==>
      current != "" && next != "" && confirm != "" && next == confirm && |next| >= 6
    ensures PasswordRejection(current, next, confirm) == Some(Mismatch) ==> current != "" && next != "" && confirm != ""
    ensures PasswordRejection(current, next, confirm) == Some(TooShort) ==> next == confirm && |next| < 6
  {
  }

  class ProfileScreen {
    var stats: Stats
    var loadingStats: bool
    var showEditModal: bool
    var newName: string
    var newAvatar: Option<string>
    var savingProfile: bool
    var showPasswordModal: bool
    var currentPassword: string
    var newPassword: string
    var confirmPassword: string
    var savingPassword: bool
    var showPreferencesModal: bool
    var interests: seq<string>

    constructor (interests: seq<string>)
      ensures stats == Stats(0, 0, 0, "") && loadingStats
      ensures !showEditModal && newName == "" && newAvatar == None && !savingProfile
      ensures !showPasswordModal && currentPassword == "" && newPassword == "" && confirmPassword == "" && !savingPassword
      ensures !showPreferencesModal && this.interests == interests
    {
      stats := Stats(0, 0, 0, "");
      loadingStats := true;
      showEditModal, newName, newAvatar, savingProfile := false, "", None, false;
      showPasswordModal, currentPassword, newPassword, confirmPassword, savingPassword := false, "", "", "", false;
      showPreferencesModal := false;
      this.interests := interests;
    }

    /** `loadStats`: the statistics of the normalised list, or the empty statistics when the request fails. */
    method LoadStats(fetch: Dashboard.FetchOutcome)
      modifies this`stats, this`loadingStats
      ensures fetch.Fetched? ==> stats == StatsOf(Dashboard.Normalize(fetch.body))
      ensures fetch.FetchFailed? ==> stats == EmptyStats
      ensures !loadingStats
    {
      match fetch {
        case Fetched(body) =>
          var items := Dashboard.Normalize(body);
          if |items| == 0 {
            stats := EmptyStats;
          } else {
            var completed := |Filter(items, IsCompleted())|;
            var countries := |CountrySet(items)|;
            stats := Stats(|items|, completed, countries, items[0].title);
          }
        case FetchFailed(_) =>
          stats := EmptyStats;
      }
      loadingStats := false;
    }

    /** `handleEditProfile`: the form starts from the user's name (`""` when none) and avatar. */
    method HandleEditProfile(user: Option<User>)
      modifies this`newName, this`newAvatar, this`showEditModal
      ensures newName == (if user.Some? then user.value.name.GetOr("") else "")
      ensures newAvatar == (if user.Some? then user.value.avatar else None)
      ensures showEditModal
    {
      newName := if user.Some? then user.value.name.GetOr("") else "";
      newAvatar := if user.Some? then user.value.avatar else None;
      showEditModal := true;
    }

    /**
     * `handleSaveProfile`: a blank name is refused; otherwise the trimmed
     * name and the avatar are sent, and the modal closes only on success.
     * `failure` is the call's outcome: `None` for success, else its message.
     */
    method HandleSaveProfile(failure: Option<Option<string>>) returns (sent: Option<ProfileUpdate>, alert: Alert)
      modifies this`showEditModal, this`savingProfile
      ensures sent.Some? <==> !IsBlank(newName)
      ensures sent.Some? ==> sent.value == ProfileUpdate(Trim(newName), newAvatar)
      ensures sent.None? ==> alert == EnterName && showEditModal == old(showEditModal) && savingProfile == old(savingProfile)
      ensures sent.Some? && failure.None? ==> alert == ProfileUpdated && !showEditModal
      ensures sent.Some? && failure.Some? ==> alert == Alert("Erro", OrDefault(failure.value, ProfileFailure)) && showEditModal == old(showEditModal)
      ensures sent.Some? ==> !savingProfile
    {
      var name := newName;
      if IsBlank(name) {
        sent, alert := None, EnterName;
        return;
      }
      savingProfile := true;
      sent := Some(ProfileUpdate(Trim(name), newAvatar));
      if failure.None? {
        alert := ProfileUpdated;
        showEditModal := false;
      } else {
        alert := Alert("Erro", OrDefault(failure.value, ProfileFailure));
      }
      savingProfile := false;
    }

    /** `handleChangePassword`: the three fields are cleared and the modal opens. */
    method HandleChangePassword()
      modifies this`currentPassword, this`newPassword, this`confirmPassword, this`showPasswordModal
      ensures currentPassword == "" && newPassword == "" && confirmPassword == "" && showPasswordModal
    {
      currentPassword, newPassword, confirmPassword := "", "", "";
      showPasswordModal := true;
    }

    /**
     * `handleSavePassword`: empty field, then mismatch, then fewer than six
     * characters; only when all pass is `updatePassword` called, and the
     * modal closes only on success.
     */
    method HandleSavePassword(failure: Option<Option<string>>) returns (sent: Option<PasswordUpdate>, alert: Alert)
      modifies this`showPasswordModal, this`savingPassword
      ensures PasswordRejection(currentPassword, newPassword, confirmPassword).Some? ==>
        sent == None && alert == PasswordRejection(currentPassword, newPassword, confirmPassword).value
        && showPasswordModal == old(showPasswordModal) && savingPassword == old(savingPassword)
      ensures PasswordRejection(currentPassword, newPassword, confirmPassword).None? ==>
        sent == Some(PasswordUpdate(currentPassword, newPassword)) && !savingPassword
      ensures sent.Some? && failure.None? ==> alert == PasswordChanged && !showPasswordModal
      ensures sent.Some? && failure.Some? ==>
        alert == Alert("Erro", OrDefault(failure.value, PasswordFailure)) && showPasswordModal == old(showPasswordModal)
    {
      if currentPassword == "" || newPassword == "" || confirmPassword == "" {
        sent, alert := None, FillAll;
        return;
      }
      if newPassword != confirmPassword {
        sent, alert := None, Mismatch;
        return;
      }
      if |newPassword| < 6 {
        sent, alert := None, TooShort;
        return;
      }
      savingPassword := true;
      sent := Some(PasswordUpdate(currentPassword, newPassword));
      if failure.None? {
        alert := PasswordChanged;
        showPasswordModal := false;
      } else {
        alert := Alert("Erro", OrDefault(failure.value, PasswordFailure));
      }
      savingPassword := false;
    }

    /** `handleOpenPreferences`: the chosen interests start from the user's saved ones, none when unset, and the modal opens. */
    method HandleOpenPreferences(saved: Option<seq<string>>)
      modifies this`interests, this`showPreferencesModal
      ensures interests == saved.GetOr([]) && showPreferencesModal
    {
      interests := if saved.Some? then saved.value else [];
      showPreferencesModal := true;
    }

    /** The interest buttons: a chosen interest is removed (every occurrence), another one appended. */
    method ToggleInterest(interest: string)
      modifies this`interests
      ensures interests == Toggle(old(interests), interest)
      ensures interest in interests <==> interest !in old(interests)
      ensures forall y :: y != interest ==> multiset(interests)[y] == multiset(old(interests))[y]
    {
      ToggleKeepsOthers(interests, interest);
      interests := Toggle(interests, interest);
    }
  }
}
