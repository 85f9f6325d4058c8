// The tenant's settings page (components/Settings.jsx): password strength and its meter, the
// details form's validators, and the guards in front of saving terms, details and a new password.
module Settings {
  import opened Wrappers
  import opened Strings
  import opened Entities

  /** The character classes a password is checked for, in the page's order. */
  datatype Requirement = Digit | Lowercase | Uppercase

  const Requirements: seq<Requirement> := [Digit, Lowercase, Uppercase]

  function Label(r: Requirement): string
  {
    match r
    case Digit => "Includes number"
    case Lowercase => "Includes lowercase letter"
    case Uppercase => "Includes uppercase letter"
  }

  predicate InClass(r: Requirement, c: char)
  {
    match r
    case Digit => IsDigit(c)
    case Lowercase => IsLowerLetter(c)
    case Uppercase => IsUpper(c)
  }

  /** `requirement.re.test(password)`: some character of the class occurs in the password. */
  predicate Meets(r: Requirement, password: string)
  {
    exists i | 0 <= i < |password| :: InClass(r, password[i])
  }

  /** How many of `reqs` the password misses. */
  function Unmet(reqs: seq<Requirement>, password: string): nat
  {
    if reqs == [] then 0
    else Unmet(reqs[..|reqs| - 1], password) + (if Meets(reqs[|reqs| - 1], password) then 0 else 1)
  }

  /** One step for a password of at most five characters, one for each missing class. */
  function Multiplier(password: string): nat
  {
    (if |password| > 5 then 0 else 1) + Unmet(Requirements, password)
  }

  /** The strength: a quarter of 100 (`100 / (requirements.length + 1)`) off per step, never below 0. */
  function Strength(password: string): int
  {
    var s := 100 - (100 / (|Requirements| + 1)) * Multiplier(password);
    if s < 0 then 0 else s
  }

  /** `getStrength`: the multiplier counted up requirement by requirement. */
  method GetStrength(password: string) returns (strength: int)
    ensures strength == Strength(password)
  {
    var multiplier := if |password| > 5 then 0 else 1;
    var i := 0;
    while i < |Requirements|
      invariant 0 <= i <= |Requirements|
      invariant multiplier == (if |password| > 5 then 0 else 1) + Unmet(Requirements[..i], password)
    {
      assert Requirements[..i + 1][..i] == Requirements[..i];
      if !Meets(Requirements[i], password) {
        multiplier := multiplier + 1;
      }
      i := i + 1;
    }
    assert Requirements[..i] == Requirements;
    strength := 100 - 25 * multiplier;
    if strength < 0 {
      strength := 0;
    }
  }

  /** The unmet count over the three classes, spelled out. */
  lemma UnmetAll(password: string)
    ensures Unmet(Requirements, password) ==
              (if Meets(Digit, password) then 0 else 1) +
              (if Meets(Lowercase, password) then 0 else 1) +
              (if Meets(Uppercase, password) then 0 else 1)
  {
    var two, one: seq<Requirement> := [Digit, Lowercase], [Digit];
    assert Requirements[..|Requirements| - 1] == two;
    assert two[..|two| - 1] == one;
    assert one[..|one| - 1] == [];
    assert Unmet(one, password) == (if Meets(Digit, password) then 0 else 1);
    assert Unmet(two, password) == Unmet(one, password) + (if Meets(Lowercase, password) then 0 else 1);
  }

  /** The strength takes one of five levels, and it is full exactly when the password is longer
      than five characters and has a digit, a lower-case and an upper-case letter. */
  lemma StrengthLevels(password: string)
    ensures Strength(password) in {0, 25, 50, 75, 100}
    ensures Strength(password) == 100 <==>
              |password| > 5 && Meets(Digit, password) && Meets(Lowercase, password) && Meets(Uppercase, password)
    ensures Strength(password) == 0 <==>
              |password| <= 5 && !Meets(Digit, password) && !Meets(Lowercase, password) && !Meets(Uppercase, password)
  {
    UnmetAll(password);
  }

  /** `value.length > 0 && index === 0 ? 100 : strength >= ((index + 1) / 4) * 100 ? 100 : 0` */
  function BarValue(password: string, index: nat): int
  {
    if |password| > 0 && index == 0 then 100
    else if Strength(password) as real >= ((index + 1) as real / 4.0) * 100.0 then 100
    else 0
  }

  /** Bar 0 lights for any non-empty password; bar i lights once the strength reaches (i+1)
      quarters. */
  lemma BarLit(password: string, index: nat)
    ensures BarValue(password, index) == 100 <==>
              (|password| > 0 && index == 0) || Strength(password) >= 25 * (index + 1)
    ensures BarValue(password, index) == 0 || BarValue(password, index) == 100
  {
    assert ((index + 1) as real / 4.0) * 100.0 == (25 * (index + 1)) as real;
  }

  /** Lit bars form a prefix of the meter. */
  lemma BarsFillFromLeft(password: string, i: nat, j: nat)
    requires i <= j && BarValue(password, j) == 100
    ensures BarValue(password, i) == 100
  {
    BarLit(password, i);
    BarLit(password, j);
  }

  /** An empty password lights no bar. */
  lemma EmptyPasswordLightsNothing(index: nat)
    ensures BarValue("", index) == 0
  {
    StrengthLevels("");
    BarLit("", index);
  }

  /** The meter's colour: teal above 80, yellow above 50, red otherwise. */
  function BarColor(strength: int): string
  {
    if strength > 80 then "teal" else if strength > 50 then "yellow" else "red"
  }

  /** Teal means full strength, and yellow means exactly one step short. */
  lemma ColorReadsStrength(password: string)
    ensures BarColor(Strength(password)) == "teal" <==> Strength(password) == 100
    ensures BarColor(Strength(password)) == "yellow" <==> Strength(password) == 75
  {
    StrengthLevels(password);
  }

  const NameRequired := "Name is required"
  const NameTooLong := "Display name is too long"
  const DiscordTooLong := "Discord is too long"

  /** The display name's rule: blank after trimming, then over 50 characters untrimmed. */
  function DisplayNameError(value: string): Option<string>
  {
    if |Trim(value)| > 0 then (if |value| > 50 then Some(NameTooLong) else None) else Some(NameRequired)
  }

  function DiscordError(value: string): Option<string>
  {
    if |value| > 20 then Some(DiscordTooLong) else None
  }

  /** A display name passes iff it is not blank and has at most 50 characters counting its
      surrounding spaces; a blank one is "required" whatever its length; a Discord name
      passes iff it has at most 20 characters. */
  lemma DetailsRules(name: string, discord: string)
    ensures DisplayNameError(name).None? <==> !IsBlank(name) && |name| <= 50
    ensures IsBlank(name) ==> DisplayNameError(name) == Some(NameRequired)
    ensures DiscordError(discord).None? <==> |discord| <= 20
  {
  }

  /** The details form; `currencyPrefix` is `None` where the value is undefined. */
  datatype Details = Details(displayName: string, discord: string, logo: string, avatarUrl: string,
                             currencyPrefix: Option<string>)

  predicate DetailsValid(d: Details)
  {
    DisplayNameError(d.displayName).None? && DiscordError(d.discord).None?
  }

  const Demo := "demo@vouchley.com"
  const TermsLimit := 500

  const TermsTooLong := Toast("Error!", "Your terms and conditions can not exceed 500 characters!", "red")
  const TermsSaved := Toast("Done!", "Terms and conditions have been saved!", "green")
  const DetailsSaved := Toast("Done!", "Details have been saved!", "green")
  const PasswordUpdated := Toast("Done!", "Password has been updated!", "green")
  const PasswordWeak := Toast("Error!", "Your password does not meet the requirements!", "red")

  /** The page with what it writes: the stored settings row's terms and details, the signed-in
      user's context copy of the details, the account password, and the last notification. */
  class SettingsPanel {
    const email: string
    var storedTerms: string
    var storedDetails: Details
    var context: Details
    var password: string
    var toast: Option<Toast>

    constructor (email: string, terms: string, details: Details, password: string)
      ensures this.email == email && storedTerms == terms && storedDetails == details
      ensures context == details && this.password == password && toast.None?
    {
      this.email := email;
      storedTerms := terms;
      storedDetails := details;
      context := details;
      this.password := password;
      toast := None;
    }

    /** `handleTosSave`: terms over 500 characters of HTML are refused before any write. */
    method SaveTerms(html: string, writeFails: bool)
      modifies this
      ensures |html| > TermsLimit ==> storedTerms == old(storedTerms) && toast == Some(TermsTooLong)
      ensures |html| <= TermsLimit && writeFails ==> storedTerms == old(storedTerms) && toast == Some(SomethingWrong)
      ensures |html| <= TermsLimit && !writeFails ==> storedTerms == html && toast == Some(TermsSaved)
      ensures storedDetails == old(storedDetails) && context == old(context) && password == old(password)
    {
      if |html| > TermsLimit {
        toast := Some(TermsTooLong);
        return;
      }
      if writeFails {
        toast := Some(SomethingWrong);
      } else {
        storedTerms := html;
        toast := Some(TermsSaved);
      }
    }

    /** `handleDetailsSave` as written: the context update reads `currency_prefix` from the top
        of the form values, where the form keeps it under `settings`, so the context loses it. */
    method SaveDetailsAsWritten(form: Details, writeFails: bool)
      modifies this
      ensures !DetailsValid(form) ==> unchanged(this)
      ensures DetailsValid(form) && writeFails ==>
                storedDetails == old(storedDetails) && context == old(context) && toast == Some(SomethingWrong)
      ensures DetailsValid(form) && !writeFails ==>
                storedDetails == form && context == form.(currencyPrefix := None) && toast == Some(DetailsSaved)
      ensures storedTerms == old(storedTerms) && password == old(password)
    {
      if DetailsValid(form) {
        CommitDetails(form, form.(currencyPrefix := None), writeFails);
      }
    }

    /** `handleDetailsSave` with the context given the prefix that was saved. */
    method SaveDetails(form: Details, writeFails: bool)
      modifies this
      ensures !DetailsValid(form) ==> unchanged(this)
      ensures DetailsValid(form) && writeFails ==>
                storedDetails == old(storedDetails) && context == old(context) && toast == Some(SomethingWrong)
      ensures DetailsValid(form) && !writeFails ==>
                storedDetails == form && context == storedDetails && toast == Some(DetailsSaved)
      ensures storedTerms == old(storedTerms) && password == old(password)
    {
      if DetailsValid(form) {
        CommitDetails(form, form, writeFails);
      }
    }

    /** The write of validated details, and the context copy `seen` set after it succeeds. */
    method CommitDetails(form: Details, seen: Details, writeFails: bool)
      modifies this
      ensures writeFails ==>
                storedDetails == old(storedDetails) && context == old(context) && toast == Some(SomethingWrong)
      ensures !writeFails ==> storedDetails == form && context == seen && toast == Some(DetailsSaved)
      ensures storedTerms == old(storedTerms) && password == old(password)
    {
      if writeFails {
        toast := Some(SomethingWrong);
      } else {
        storedDetails := form;
        context := seen;
        toast := Some(DetailsSaved);
      }
    }

    /** `handleUpdatePassword`: the demo account is told it succeeded and nothing changes; any
        other account changes its password only at full strength. */
    method UpdatePassword(value: string, updateFails: bool)
      modifies this
      ensures email == Demo ==> password == old(password) && toast == Some(PasswordUpdated)
      ensures email != Demo && Strength(value) != 100 ==> password == old(password) && toast == Some(PasswordWeak)
      ensures email != Demo && Strength(value) == 100 ==>
                (updateFails ==> password == old(password) && toast == Some(SomethingWrong)) &&
                (!updateFails ==> password == value && toast == Some(PasswordUpdated))
      ensures storedTerms == old(storedTerms) && storedDetails == old(storedDetails) && context == old(context)
    {
      if email == Demo {
        toast := Some(PasswordUpdated);
        return;
      }
      var strength := GetStrength(value);
      if strength != 100 {
        toast := Some(PasswordWeak);
      } else if updateFails {
        toast := Some(SomethingWrong);
      } else {
        password := value;
        toast := Some(PasswordUpdated);
      }
    }
  }

  /** A saved prefix of "€" is in the store but not in the context after the as-written save. */
  method PrefixLostAfterSave() returns (stored: Option<string>, seen: Option<string>)
    ensures stored == Some("€") && seen == None
  {
    var before := Details("Moon", "", "", "", Some("$"));
    var panel := new SettingsPanel("artist@example.com", "", before, "Secret123");
    var form := before.(currencyPrefix := Some("€"));
    assert Trim("Moon") == "Moon";
    panel.SaveDetailsAsWritten(form, false);
    stored, seen := panel.storedDetails.currencyPrefix, panel.context.currencyPrefix;
  }

  /** Every password the page accepts meets all three requirements and is longer than five
      characters. */
  method ChangedPasswordIsStrong(panel: SettingsPanel, value: string, updateFails: bool)
    requires panel.email != Demo && panel.password != value
    modifies panel
    ensures panel.password == value ==>
              |value| > 5 && Meets(Digit, value) && Meets(Lowercase, value) && Meets(Uppercase, value)
  {
    panel.UpdatePassword(value, updateFails);
    StrengthLevels(value);
  }
}
