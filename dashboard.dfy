/**
 * The dashboard greeting (src/componnts/SubComponent/Dashboard.jsx): the student icon
 * chosen from the signed-in user's gender, and the name in the welcome line.
 */
module Dashboard {
  import opened Wrappers
  import opened Text
  import opened AuthStore

  const FemaleIcon: string := "/female.png"
  const MaleIcon: string := "/male.png"

  /** `user?.gender?.toLowerCase()`. */
  function LowerGender(user: Option<User>): Option<string>
  {
    match user
    case Some(u) => (match u.gender case Some(g) => Some(ToLower(g)) case None => None)
    case None => None
  }

  /**
   * `getIconPath()`: the female icon exactly for a gender that lower-cases to
   * `female`; the male icon for `male`, for any other value and when there is none.
   */
  function IconPath(user: Option<User>): (path: string)
    ensures path == FemaleIcon || path == MaleIcon
    ensures path == FemaleIcon <==> LowerGender(user) == Some("female")
  {
    var gender := LowerGender(user);
    if gender == Some("female") then FemaleIcon
    else if gender == Some("male") then MaleIcon
    else MaleIcon
  }

  /** Genders that agree up to letter case get the same icon. */
  lemma IconPathIgnoresCase(u: User, v: User)
    requires u.gender.Some? && v.gender.Some? && ToLower(u.gender.value) == ToLower(v.gender.value)
    ensures IconPath(Some(u)) == IconPath(Some(v))
  {
  }

  /** A user whose gender is already a lower-case word gets its icon; a missing gender or user gets the male one. */
  lemma IconPathCases(u: User)
    ensures u.gender == Some("female") ==> IconPath(Some(u)) == FemaleIcon
    ensures u.gender == Some("male") ==> IconPath(Some(u)) == MaleIcon
    ensures u.gender == None ==> IconPath(Some(u)) == MaleIcon
    ensures IconPath(None) == MaleIcon
  {
    if u.gender == Some("female") {
      LowerOfLowerCase("female");
    } else if u.gender == Some("male") {
      LowerOfLowerCase("male");
    }
  }

  /** A string without capital letters is its own lower case. */
  lemma {:induction false} LowerOfLowerCase(s: string)
    requires forall i :: 0 <= i < |s| ==> !('A' <= s[i] <= 'Z')
    ensures ToLower(s) == s
  {
    if s != [] {
      LowerOfLowerCase(s[1..]);
    }
  }

  /** `user?.fullName || 'Student'`. */
  function WelcomeName(user: Option<User>): (name: string)
    ensures name != ""
    ensures user.Some? && user.value.fullName.Some? && user.value.fullName.value != "" ==>
      name == user.value.fullName.value
    ensures name == "Student" || (user.Some? && user.value.fullName == Some(name))
  {
    match user
    case Some(User(Some(n), _, _)) => if n != "" then n else "Student"
    case _ => "Student"
  }
}
