/** The profile-settings screen: the ordered checks `handleUpdate` runs
    before it calls `updateProfile`, and the password hints shown under the
    password field. Strings are sequences of Unicode scalar values; where
    JavaScript counts UTF-16 code units (`length`) the model does too. */
module Settings {
  import opened Common
  import opened AuthContext

  /** The characters `String.prototype.trim` strips: ECMAScript WhiteSpace
      and LineTerminator. */
  predicate IsWhitespace(c: char) {
    || (0x9 <= c as int <= 0xD)
    || (0x2000 <= c as int <= 0x200A)
    || c as int in {0x20, 0xA0, 0x1680, 0x2028, 0x2029, 0x202F, 0x205F, 0x3000, 0xFEFF}
  }

  /** Every character of `s` is whitespace (vacuously so for ""). */
  predicate Blank(s: string) {
    forall i :: 0 <= i < |s| ==> IsWhitespace(s[i])
  }

  /** `s` with its leading whitespace removed. */
  function TrimStart(s: string): (r: string)
    ensures |r| <= |s| && r == s[|s| - |r|..]
    ensures r == [] || !IsWhitespace(r[0])
    ensures Blank(s[..|s| - |r|])
    decreases |s|
  {
    if s != [] && IsWhitespace(s[0]) then
      var r := TrimStart(s[1..]);
      assert s[..|s| - |r|] == [s[0]] + s[1..][..|s| - 1 - |r|];
      r
    else
      s
  }

  /** `s` with its trailing whitespace removed. */
  function TrimEnd(s: string): (r: string)
    ensures |r| <= |s| && r == s[..|r|]
    ensures r == [] || !IsWhitespace(r[|r| - 1])
    ensures Blank(s[|r|..])
    decreases |s|
  {
    if s != [] && IsWhitespace(s[|s| - 1]) then
      var r := TrimEnd(s[..|s| - 1]);
      assert s[|r|..] == s[..|s| - 1][|r|..] + [s[|s| - 1]];
      r
    else
      s
  }

  /** `s.trim()` */
  function Trim(s: string): (r: string)
    ensures |r| <= |s|
    ensures r == "" <==> Blank(s)
    ensures r != "" ==> !IsWhitespace(r[0]) && !IsWhitespace(r[|r| - 1])
  {
    var t := TrimStart(s);
    var r := TrimEnd(t);
    assert t[|r|..] == t ==> Blank(t);
    assert s[..|s| - |t|] == s ==> Blank(s);
    assert r != "" ==> r[0] == t[0];
    assert t != "" ==> t[0] == s[|s| - |t|];
    r
  }

  /** The trimmed string is `s` with a blank prefix and a blank suffix cut off. */
  lemma TrimIsSlice(s: string)
    ensures exists k :: 0 <= k <= |s| - |Trim(s)| && Trim(s) == s[k..k + |Trim(s)|]
                        && Blank(s[..k]) && Blank(s[k + |Trim(s)|..])
  {
    var t := TrimStart(s);
    var r := TrimEnd(t);
    var k := |s| - |t|;
    assert r == s[k..k + |r|];
    assert s[k + |r|..] == t[|r|..];
  }

  /** Trimming twice is trimming once. */
  lemma TrimIdempotent(s: string)
    ensures Trim(Trim(s)) == Trim(s)
  {
    var r := Trim(s);
    if r != "" {
      assert TrimStart(r) == r;
      assert TrimEnd(r) == r;
    }
  }

  /** `s.length`: the number of UTF-16 code units, two for each character
      outside the Basic Multilingual Plane. */
  function Utf16Length(s: string): (n: nat)
    ensures |s| <= n <= 2 * |s|
    ensures n == |s| <==> forall i :: 0 <= i < |s| ==> s[i] as int <= 0xFFFF
  {
    if s == [] then 0
    else
      var rest := Utf16Length(s[1..]);
      assert forall i :: 1 <= i < |s| ==> s[i] == s[1..][i - 1];
      (if s[0] as int > 0xFFFF then 2 else 1) + rest
  }

  /** One character is one code unit, or two outside the Basic Multilingual Plane. */
  lemma Utf16One(c: char)
    ensures Utf16Length([c]) == if c as int > 0xFFFF then 2 else 1
  {
    assert [c][1..] == [];
  }

  /** The code-unit length of a concatenation is the sum of the lengths. */
  lemma {:induction false} Utf16Additive(a: string, b: string)
    ensures Utf16Length(a + b) == Utf16Length(a) + Utf16Length(b)
    decreases |a|
  {
    if a == [] {
      assert a + b == b;
    } else {
      assert (a + b)[0] == a[0];
      assert (a + b)[1..] == a[1..] + b;
      Utf16Additive(a[1..], b);
    }
  }

  const MinPasswordLength := 6

  /** The reasons `handleUpdate` stops early. */
  datatype Problem = NameRequired | PasswordsDiffer | PasswordTooShort

  /** The text of the error alert for each reason. */
  function ProblemMessage(p: Problem): (m: string) {
    match p
    case NameRequired => "Name is required"
    case PasswordsDiffer => "Passwords do not match"
    case PasswordTooShort => "Password must be at least 6 characters"
  }

  /** What `handleUpdate` decides before any call: stop with an error
      alert, or call `updateProfile` with these arguments (`None` standing
      for `undefined`). */
  datatype Decision = Reject(problem: Problem) | Submit(name: string, password: Option<string>)

  /** A password was typed in either field. */
  predicate PasswordGiven(password: string, confirmPassword: string) {
    password != "" || confirmPassword != ""
  }

  /** The early-return checks of `handleUpdate`, in their order. */
  function Validate(name: string, password: string, confirmPassword: string): (d: Decision)
    ensures d == Reject(NameRequired) <==> Blank(name)
    ensures d == Reject(PasswordsDiffer) <==>
      !Blank(name) && PasswordGiven(password, confirmPassword) && password != confirmPassword
    ensures d == Reject(PasswordTooShort) <==>
      && !Blank(name) && PasswordGiven(password, confirmPassword) && password == confirmPassword
      && Utf16Length(password) < MinPasswordLength
    ensures d.Submit? <==>
      !Blank(name) && password == confirmPassword && (password == "" || Utf16Length(password) >= MinPasswordLength)
    ensures d.Submit? ==> d.name == Trim(name) && d.name != ""
    ensures d.Submit? ==> d.password == (if password == "" then None else Some(password))
  {
    var trimmed := Trim(name);
    if trimmed == "" then Reject(NameRequired)
    else if PasswordGiven(password, confirmPassword) && password != confirmPassword then Reject(PasswordsDiffer)
    else if PasswordGiven(password, confirmPassword) && Utf16Length(password) < MinPasswordLength then Reject(PasswordTooShort)
    else Submit(trimmed, if password != "" then Some(password) else None)
  }

  /** With both password fields empty no password rule applies. */
  lemma NoPasswordSubmitsName(name: string)
    requires !Blank(name)
    ensures Validate(name, "", "") == Submit(Trim(name), None)
  {
  }

  /** A password that `handleUpdate` sends is at least six code units long,
      so the first hint is never shown beside it. */
  lemma SubmittedPasswordIsLongEnough(name: string, password: string, confirmPassword: string)
    requires Validate(name, password, confirmPassword).Submit?
    requires Validate(name, password, confirmPassword).password.Some?
    ensures Utf16Length(Validate(name, password, confirmPassword).password.value) >= MinPasswordLength
    ensures LengthHint !in PasswordHints(Validate(name, password, confirmPassword).password.value)
  {
  }

  /** `/[A-Z]/.test(s)` */
  predicate HasUppercase(s: string) {
    exists i :: 0 <= i < |s| && 'A' <= s[i] <= 'Z'
  }

  /** `/[a-z]/.test(s)` */
  predicate HasLowercase(s: string) {
    exists i :: 0 <= i < |s| && 'a' <= s[i] <= 'z'
  }

  /** The three hint lines under the password field. */
  datatype Hint = LengthHint | UppercaseHint | LowercaseHint

  function HintText(h: Hint): (text: string) {
    match h
    case LengthHint => "Password must be at least 6 characters long \n"
    case UppercaseHint => "Password must contain at least 1 uppercase letter \n"
    case LowercaseHint => "Password must contain at least 1 lowercase letter \n"
  }

  /** The position of a hint's line under the password field. */
  function Rank(h: Hint): nat {
    match h
    case LengthHint => 0
    case UppercaseHint => 1
    case LowercaseHint => 2
  }

  /** No two hints share a text, so a line on screen names its hint. */
  lemma HintTextsDiffer()
    ensures forall a: Hint, b: Hint :: HintText(a) == HintText(b) ==> a == b
  {
    assert |HintText(LengthHint)| == 45;
    assert |HintText(UppercaseHint)| == 51 && |HintText(LowercaseHint)| == 51;
    assert HintText(UppercaseHint)[33] == 'u' && HintText(LowercaseHint)[33] == 'l';
  }

  /** The hint lines displayed under the password field, top to bottom. */
  function PasswordHints(password: string): (hints: seq<Hint>)
    ensures LengthHint in hints <==> Utf16Length(password) < MinPasswordLength
    ensures UppercaseHint in hints <==> !HasUppercase(password)
    ensures LowercaseHint in hints <==> !HasLowercase(password)
    ensures forall i, j :: 0 <= i < j < |hints| ==> hints[i] != hints[j]
    ensures forall i, j :: 0 <= i < j < |hints| ==> Rank(hints[i]) < Rank(hints[j])
  {
    (if Utf16Length(password) >= MinPasswordLength then [] else [LengthHint])
    + (if HasUppercase(password) then [] else [UppercaseHint])
    + (if HasLowercase(password) then [] else [LowercaseHint])
  }

  /** Only length and agreement of the two fields decide: for any name that
      is not blank, a password of at least six code units typed twice is sent
      as it is, whatever letters it contains. */
  lemma LongMatchingPasswordSubmits(name: string, password: string)
    requires !Blank(name) && Utf16Length(password) >= MinPasswordLength
    ensures Validate(name, password, password) == Submit(Trim(name), Some(password))
  {
  }

  /** The text under the password field: one line per hint shown, in order. */
  function HintLines(password: string): (lines: seq<string>)
    ensures |lines| == |PasswordHints(password)|
    ensures forall i :: 0 <= i < |lines| ==> lines[i] == HintText(PasswordHints(password)[i])
    ensures HintText(LengthHint) in lines <==> Utf16Length(password) < MinPasswordLength
    ensures HintText(UppercaseHint) in lines <==> !HasUppercase(password)
    ensures HintText(LowercaseHint) in lines <==> !HasLowercase(password)
    ensures forall i, j :: 0 <= i < j < |lines| ==> lines[i] != lines[j]
  {
    HintTextsDiffer();
    var hints := PasswordHints(password);
    seq(|hints|, i requires 0 <= i < |hints| => HintText(hints[i]))
  }

  /** The upper- and lower-case hints are advice only: "123456" shows both
      of them and still passes the checks of `handleUpdate`. */
  lemma CaseHintsDoNotBlockUpdate(name: string)
    requires !Blank(name)
    ensures Validate(name, "123456", "123456") == Submit(Trim(name), Some("123456"))
    ensures UppercaseHint in PasswordHints("123456") && LowercaseHint in PasswordHints("123456")
  {
    var p := "123456";
    assert p == ['1', '2', '3', '4', '5', '6'];
    assert !HasUppercase(p) && !HasLowercase(p);
    assert forall i :: 0 <= i < |p| ==> p[i] as int <= 0xFFFF;
    LongMatchingPasswordSubmits(name, p);
  }

  /** An alert shown by the screen. */
  datatype Alert = Alert(title: string, message: string)

  const UpdatedAlert := Alert("Success", "Profile updated successfully!")
  const UpdateFallback := "Failed to update profile"

  /** Arguments of the `updateProfile` call. */
  datatype ProfileUpdate = ProfileUpdate(name: string, password: Option<string>)

  /** How the awaited `updateProfile` call settles; `message` is the
      thrown error's `message`. */
  datatype UpdateOutcome = Updated | UpdateFailed(message: string)

  class SettingsScreen {
    var name: string
    var password: string
    var confirmPassword: string
    var loading: bool

    /** The `useState` initial values: the current user's name, or "". */
    constructor (user: Option<User>)
      ensures name == (if user.Some? then user.value.name else "")
      ensures password == "" && confirmPassword == "" && !loading
    {
      name := if user.Some? then OrElse(Some(user.value.name), "") else "";
      password := "";
      confirmPassword := "";
      loading := false;
    }

    /** `handleUpdate`. `outcome` is how `updateProfile` settles if it is
        called; the method returns the call it made, if any, and the alert. */
    method HandleUpdate(outcome: UpdateOutcome) returns (call: Option<ProfileUpdate>, alert: Alert)
      modifies this`loading
      ensures var d := Validate(name, password, confirmPassword);
        && (d.Reject? ==> call == None && alert == Alert("Error", ProblemMessage(d.problem)) && loading == old(loading))
        && (d.Submit? ==> call == Some(ProfileUpdate(d.name, d.password)) && !loading)
        && (d.Submit? && outcome.Updated? ==> alert == UpdatedAlert)
        && (d.Submit? && outcome.UpdateFailed? ==>
              alert == Alert("Error", OrElse(Some(outcome.message), UpdateFallback)))
    {
      var d := Validate(name, password, confirmPassword);
      if d.Reject? {
        return None, Alert("Error", ProblemMessage(d.problem));
      }
      loading := true;
      call := Some(ProfileUpdate(d.name, d.password));
      match outcome {
        case Updated =>
          alert := UpdatedAlert;
        case UpdateFailed(message) =>
          alert := Alert("Error", OrElse(Some(message), UpdateFallback));
      }
      loading := false;
    }
  }
}
