/** The dashboard's header: the name and initials shown for the user, and the plan badge. */
module Header {
  import opened Common
  import opened AuthContext

  /** `user?.discordUsername || user?.email || "Unknown"`. */
  function DisplayName(user: Option<User>): (s: string)
    ensures user.Some? && Truthy(user.value.discordUsername) ==> s == user.value.discordUsername.value
    ensures user.Some? && !Truthy(user.value.discordUsername) && user.value.email != "" ==> s == user.value.email
    ensures (user.None? || (!Truthy(user.value.discordUsername) && user.value.email == "")) ==> s == "Unknown"
    ensures s != ""
  {
    if user.Some? && Truthy(user.value.discordUsername) then user.value.discordUsername.value
    else if user.Some? && user.value.email != "" then user.value.email
    else "Unknown"
  }

  /** The first two characters, upper-cased, of the Discord name, else of the email, else `??`. */
  function Initials(user: Option<User>): (s: string)
    ensures |s| <= 2
    ensures user.Some? && Truthy(user.value.discordUsername) ==> s == Upper(Prefix(user.value.discordUsername.value, 2))
    ensures user.Some? && !Truthy(user.value.discordUsername) && user.value.email != "" ==> s == Upper(Prefix(user.value.email, 2))
    ensures (user.None? || (!Truthy(user.value.discordUsername) && user.value.email == "")) ==> s == "??"
  {
    if user.Some? && Truthy(user.value.discordUsername) then Upper(Prefix(user.value.discordUsername.value, 2))
    else if user.Some? && user.value.email != "" then Upper(Prefix(user.value.email, 2))
    else "??"
  }

  /** The initials are those of the name shown, whenever a name is shown. */
  lemma {:induction false} InitialsOfDisplayName(user: Option<User>)
    requires user.Some? && (Truthy(user.value.discordUsername) || user.value.email != "")
    ensures Initials(user) == Upper(Prefix(DisplayName(user), 2))
    ensures Initials(user) != "" && StartsWith(Upper(DisplayName(user)), Initials(user))
  {
    var name := DisplayName(user);
    var p := Prefix(name, 2);
    assert |p| >= 1;
    UpperPrefix(name, p);
  }

  lemma UpperPrefix(s: string, p: string)
    requires StartsWith(s, p)
    ensures StartsWith(Upper(s), Upper(p))
  {
    assert Upper(s)[..|p|] == Upper(p);
  }

  /** `subscription?.tier || "free"`. */
  function HeaderTier(sub: Option<Subscription>): (t: string)
    ensures sub.Some? && Truthy(sub.value.tier) ==> t == sub.value.tier.value
    ensures !(sub.Some? && Truthy(sub.value.tier)) ==> t == "free"
    ensures t != ""
  {
    if sub.Some? then OrElse(sub.value.tier, "free") else "free"
  }

  function Badge(tier: string): string {
    Upper(tier)
  }

  /** The plan line of the menu: the tier with its first character upper-cased, then " Plan". */
  function PlanLabel(tier: string): (s: string)
    ensures tier != "" ==> s == [UpperChar(tier[0])] + tier[1..] + " Plan"
    ensures tier == "" ==> s == " Plan"
  {
    Upper(Prefix(tier, 1)) + (if tier == "" then "" else tier[1..]) + " Plan"
  }

  lemma PlanLabels()
    ensures PlanLabel("free") == "Free Plan" && PlanLabel("mvp") == "Mvp Plan"
  {
    assert PlanLabel("free") == "F" + "ree" + " Plan";
    assert PlanLabel("mvp") == "M" + "vp" + " Plan";
  }
}
