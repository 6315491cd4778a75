/** The profile page (src/pages/Profile.tsx): the saved profile, the draft
    being edited and the editing flag, and the avatar initials computed
    from the saved name. */
module Profile {

  datatype UserProfile = UserProfile(
    name: string,
    email: string,
    phone: string,
    location: string,
    dateOfBirth: string,
    emergencyContact: string)

  /** The six editable fields, one input each. */
  datatype Field = Name | Email | Phone | Location | DateOfBirth | EmergencyContact

  function Get(p: UserProfile, f: Field): string {
    match f
    case Name => p.name
    case Email => p.email
    case Phone => p.phone
    case Location => p.location
    case DateOfBirth => p.dateOfBirth
    case EmergencyContact => p.emergencyContact
  }

  /** `{...editProfile, <field>: value}`: one field replaced, the rest kept. */
  function WithField(p: UserProfile, f: Field, value: string): (q: UserProfile)
    ensures Get(q, f) == value
    ensures forall g :: g != f ==> Get(q, g) == Get(p, g)
  {
    match f
    case Name => p.(name := value)
    case Email => p.(email := value)
    case Phone => p.(phone := value)
    case Location => p.(location := value)
    case DateOfBirth => p.(dateOfBirth := value)
    case EmergencyContact => p.(emergencyContact := value)
  }

  /** Two profiles with the same fields are the same profile. */
  lemma ProfileExtensional(p: UserProfile, q: UserProfile)
    requires forall f :: Get(p, f) == Get(q, f)
    ensures p == q
  {
    assert Get(p, Name) == Get(q, Name) && Get(p, Email) == Get(q, Email);
    assert Get(p, Phone) == Get(q, Phone) && Get(p, Location) == Get(q, Location);
    assert Get(p, DateOfBirth) == Get(q, DateOfBirth);
    assert Get(p, EmergencyContact) == Get(q, EmergencyContact);
  }

  /** Typing back a field's old value leaves the draft as it was. */
  lemma WithFieldSame(p: UserProfile, f: Field)
    ensures WithField(p, f, Get(p, f)) == p
  {
    ProfileExtensional(WithField(p, f, Get(p, f)), p);
  }

  const InitialProfile: UserProfile := UserProfile(
    "Sarah Johnson",
    "sarah.johnson@email.com",
    "+1 (555) 123-4567",
    "San Francisco, CA",
    "1990-05-15",
    "John Johnson - +1 (555) 987-6543")

  /** What a field's row displays: its text as stored, or, for the saved
      date of birth, that date as `toLocaleDateString` formats it. */
  datatype Display = Plain(text: string) | LocaleDate(iso: string)

  /** The stored text a display is produced from. */
  function Source(d: Display): string {
    match d
    case Plain(text) => text
    case LocaleDate(iso) => iso
  }

  /** The page's state. */
  class ProfilePage {
    var isEditing: bool
    var profile: UserProfile
    var editProfile: UserProfile

    /** Outside editing the draft is the saved profile. */
    ghost predicate Valid()
      reads this
    {
      !isEditing ==> editProfile == profile
    }

    /** What the page shows for a field: the draft's input while editing,
        the saved value otherwise, the date of birth passed through the
        locale's date format. Either way it comes from the draft's text. */
    function Shown(f: Field): (d: Display)
      reads this
      requires Valid()
      ensures isEditing ==> d == Plain(Get(editProfile, f))
      ensures !isEditing && f != DateOfBirth ==> d == Plain(Get(profile, f))
      ensures !isEditing && f == DateOfBirth ==> d == LocaleDate(profile.dateOfBirth)
      ensures Source(d) == Get(editProfile, f)
    {
      if isEditing then Plain(Get(editProfile, f))
      else if f == DateOfBirth then LocaleDate(profile.dateOfBirth)
      else Plain(Get(profile, f))
    }

    constructor ()
      ensures Valid()
      ensures !isEditing && profile == InitialProfile && editProfile == InitialProfile
    {
      isEditing := false;
      profile := InitialProfile;
      editProfile := InitialProfile;
    }

    /** The Edit Profile button: editing starts from the current draft. */
    method StartEditing()
      requires Valid()
      modifies this
      ensures Valid()
      ensures isEditing
      ensures profile == old(profile) && editProfile == old(editProfile)
    {
      isEditing := true;
    }

    /** handleSave: the draft becomes the profile and editing ends. */
    method Save()
      requires Valid()
      modifies this
      ensures Valid()
      ensures profile == old(editProfile) && editProfile == old(editProfile)
      ensures !isEditing
    {
      profile := editProfile;
      isEditing := false;
    }

    /** handleCancel: the draft is thrown away and editing ends; the saved
        profile is untouched. */
    method Cancel()
      requires Valid()
      modifies this
      ensures Valid()
      ensures profile == old(profile) && editProfile == old(profile)
      ensures !isEditing
    {
      editProfile := profile;
      isEditing := false;
    }

    /** A field's onChange: the inputs exist only while editing, and each
        replaces exactly one field of the draft. */
    method EditField(f: Field, value: string)
      requires Valid() && isEditing
      modifies this
      ensures Valid()
      ensures isEditing && profile == old(profile)
      ensures editProfile == WithField(old(editProfile), f, value)
      ensures Get(editProfile, f) == value
      ensures forall g :: g != f ==> Get(editProfile, g) == Get(old(editProfile), g)
    {
      editProfile := WithField(editProfile, f, value);
    }
  }

  /** String.prototype.split(' '): the pieces between spaces, in order;
      there is always at least one, possibly empty. */
  function Split(s: string): (parts: seq<string>)
    ensures 1 <= |parts|
    ensures forall i, j :: 0 <= i < |parts| && 0 <= j < |parts[i]| ==> parts[i][j] != ' '
  {
    if |s| == 0 then [""]
    else if s[0] == ' ' then [""] + Split(s[1..])
    else
      var rest := Split(s[1..]);
      [[s[0]] + rest[0]] + rest[1..]
  }

  /** Array.prototype.join(' '). */
  function JoinSpace(parts: seq<string>): string
    requires 1 <= |parts|
  {
    if |parts| == 1 then parts[0] else parts[0] + " " + JoinSpace(parts[1..])
  }

  /** Splitting at spaces loses nothing: joining the pieces with spaces
      gives the name back. */
  lemma {:induction false} JoinSplit(s: string)
    ensures JoinSpace(Split(s)) == s
  {
    if |s| > 0 {
      JoinSplit(s[1..]);
      var rest := Split(s[1..]);
      if s[0] == ' ' {
        assert Split(s)[1..] == rest;
      } else {
        if |rest| == 1 {
          assert s == [s[0]] + rest[0];
        } else {
          assert Split(s)[1..] == rest[1..];
          assert s == [s[0]] + rest[0] + " " + JoinSpace(rest[1..]);
        }
      }
    }
  }

  /** `.map(n => n[0]).join('')`: the first character of each piece; an
      empty piece gives undefined, which join turns into nothing. */
  function FirstChars(parts: seq<string>): (s: string)
    ensures |s| <= |parts|
  {
    if |parts| == 0 then ""
    else (if |parts[0]| == 0 then "" else [parts[0][0]]) + FirstChars(parts[1..])
  }

  /** The avatar's initials: exactly the characters that start a word. */
  function Initials(name: string): (r: string)
    ensures r == WordStarts(name, true)
  {
    FirstCharsSplit(name);
    FirstChars(Split(name))
  }

  /** Reference definition: the non-space characters that start the text or
      follow a space, read left to right. */
  function WordStarts(s: string, atStart: bool): (r: string)
    ensures |r| <= |s|
    ensures forall i :: 0 <= i < |r| ==> r[i] != ' '
  {
    if |s| == 0 then ""
    else (if atStart && s[0] != ' ' then [s[0]] else "") + WordStarts(s[1..], s[0] == ' ')
  }

  /** The initials are exactly the characters that start a word, by
      induction on the name (for the whole split, and for all pieces but
      the first). */
  lemma {:induction false} FirstCharsSplit(s: string)
    ensures FirstChars(Split(s)) == WordStarts(s, true)
    ensures FirstChars(Split(s)[1..]) == WordStarts(s, false)
  {
    if |s| > 0 {
      FirstCharsSplit(s[1..]);
      var rest := Split(s[1..]);
      if s[0] == ' ' {
        assert Split(s)[1..] == rest;
      } else {
        assert Split(s)[1..] == rest[1..];
        assert Split(s)[0] == [s[0]] + rest[0];
      }
    }
  }

  /** The initials contain no spaces and are never longer than the name. */
  lemma InitialsShape(name: string)
    ensures Initials(name) == WordStarts(name, true)
    ensures |Initials(name)| <= |name|
    ensures forall i :: 0 <= i < |Initials(name)| ==> Initials(name)[i] != ' '
  {
    FirstCharsSplit(name);
  }

  /** A piece without spaces that does not start a word adds nothing. */
  lemma {:induction false} WordStartsInsideWord(s: string)
    requires forall i :: 0 <= i < |s| ==> s[i] != ' '
    ensures WordStarts(s, false) == ""
  {
    if |s| > 0 {
      WordStartsInsideWord(s[1..]);
    }
  }

  /** Word starts of a concatenation: the second part continues from where
      the first left off. */
  lemma {:induction false} WordStartsAppend(x: string, y: string, atStart: bool)
    ensures WordStarts(x + y, atStart)
      == WordStarts(x, atStart) + WordStarts(y, if |x| == 0 then atStart else x[|x| - 1] == ' ')
  {
    if |x| == 0 {
      assert x + y == y;
    } else {
      assert (x + y)[1..] == x[1..] + y;
      WordStartsAppend(x[1..], y, x[0] == ' ');
      if |x| > 1 {
        assert x[1..][|x[1..]| - 1] == x[|x| - 1];
      }
    }
  }

  /** A first name and a last name give two initials. */
  lemma TwoWordInitials(first: string, last: string)
    requires 1 <= |first| && 1 <= |last|
    requires forall i :: 0 <= i < |first| ==> first[i] != ' '
    requires forall i :: 0 <= i < |last| ==> last[i] != ' '
    ensures Initials(first + " " + last) == [first[0], last[0]]
  {
    FirstCharsSplit(first + " " + last);
    WordStartsAppend(first + " ", last, true);
    WordStartsAppend(first, " ", true);
    assert WordStarts(first, true) == [first[0]] + WordStarts(first[1..], false);
    WordStartsInsideWord(first[1..]);
    WordStartsInsideWord(last[1..]);
    assert WordStarts(last, true) == [last[0]] + WordStarts(last[1..], false);
  }

  /** The stored user's avatar reads "SJ". */
  lemma InitialUserInitials()
    ensures Initials(InitialProfile.name) == "SJ"
  {
    TwoWordInitials("Sarah", "Johnson");
    assert InitialProfile.name == "Sarah" + " " + "Johnson";
  }
}
