/**
 * The local entry gate: a flag in `localStorage` under `strokeMitraAuth`,
 * React state for `isLoggedIn`, `showForm`, `email` and `password`, and the
 * acceptance test `email.trim() && password.trim()`.
 */
module Login {
  import opened Wrappers

  const AuthFlag: string := "true"

  /**
   * The characters `String.prototype.trim` removes: ECMAScript WhiteSpace
   * (tab, vertical tab, form feed, space, no-break space, zero-width no-break
   * space and the other space separators) and LineTerminator.
   */
  predicate IsTrimmable(c: char) {
    var u := c as int;
    || u == 0x09 || u == 0x0B || u == 0x0C || u == 0x20 || u == 0xA0 || u == 0xFEFF   // WhiteSpace
    || u == 0x1680 || (0x2000 <= u <= 0x200A) || u == 0x202F || u == 0x205F || u == 0x3000  // other Zs
    || u == 0x0A || u == 0x0D || u == 0x2028 || u == 0x2029   // LineTerminator
  }

  predicate AllTrimmable(s: string) {
    forall i :: 0 <= i < |s| ==> IsTrimmable(s[i])
  }

  lemma AllTrimmableConcat(a: string, b: string)
    requires AllTrimmable(a) && AllTrimmable(b)
    ensures AllTrimmable(a + b)
  {
    forall i | 0 <= i < |a + b| ensures IsTrimmable((a + b)[i]) {
      if i >= |a| {
        assert (a + b)[i] == b[i - |a|];
      }
    }
  }

  /** Leading trimmable characters removed: a suffix of `s`, the dropped prefix all trimmable. */
  function TrimStart(s: string): (r: string)
    ensures |r| <= |s| && r == s[|s| - |r|..]
    ensures AllTrimmable(s[..|s| - |r|])
    ensures r != [] ==> !IsTrimmable(r[0])
    decreases |s|
  {
    if s != [] && IsTrimmable(s[0]) then
      var r := TrimStart(s[1..]);
      assert s[|s| - |r|..] == s[1..][|s| - 1 - |r|..];
      assert s[..|s| - |r|] == [s[0]] + s[1..][..|s| - 1 - |r|];
      AllTrimmableConcat([s[0]], s[1..][..|s| - 1 - |r|]);
      r
    else s
  }

  /** Trailing trimmable characters removed: a prefix of `s`, the dropped suffix all trimmable. */
  function TrimEnd(s: string): (r: string)
    ensures |r| <= |s| && r == s[..|r|]
    ensures AllTrimmable(s[|r|..])
    ensures r != [] ==> !IsTrimmable(r[|r| - 1])
    decreases |s|
  {
    if s != [] && IsTrimmable(s[|s| - 1]) then
      var r := TrimEnd(s[..|s| - 1]);
      assert s[..|r|] == s[..|s| - 1][..|r|];
      assert s[|r|..] == s[..|s| - 1][|r|..] + [s[|s| - 1]];
      AllTrimmableConcat(s[..|s| - 1][|r|..], [s[|s| - 1]]);
      r
    else s
  }

  /** `s.trim()`. */
  function Trim(s: string): (r: string)
    ensures r != [] ==> !IsTrimmable(r[0]) && !IsTrimmable(r[|r| - 1])
  {
    TrimEnd(TrimStart(s))
  }

  /** `s.trim()` is empty exactly when every character of `s` is whitespace. */
  lemma TrimEmptyIffBlank(s: string)
    ensures Trim(s) == [] <==> AllTrimmable(s)
  {
    var t := TrimStart(s);
    var cut := |s| - |t|;
    if Trim(s) == [] {
      // all of TrimStart(s) is trailing whitespace, yet it cannot start with whitespace
      assert AllTrimmable(t) by {
        assert t[|TrimEnd(t)|..] == t;
      }
      assert t == [];
      assert s[..cut] == s;
    } else {
      assert Trim(s)[0] == t[0];
      assert s[cut] == t[0];
    }
  }

  /** The login form's test: both fields hold something other than whitespace. */
  function Accepts(email: string, password: string): (ok: bool)
    ensures ok <==> !AllTrimmable(email) && !AllTrimmable(password)
  {
    TrimEmptyIffBlank(email);
    TrimEmptyIffBlank(password);
    Trim(email) != [] && Trim(password) != []
  }

  class LoginGate {
    var isLoggedIn: bool
    var showForm: bool
    var email: string
    var password: string
    var stored: Option<string>          // localStorage['strokeMitraAuth']

    /** Mounting, including the effect that reads the stored flag. */
    constructor (flag: Option<string>)
      ensures isLoggedIn <==> flag == Some(AuthFlag)
      ensures !showForm && email == "" && password == "" && stored == flag
    {
      isLoggedIn := false;
      showForm := false;
      email, password := "", "";
      stored := flag;
      new;
      isLoggedIn := stored == Some(AuthFlag);   // the mount effect
    }

    /** The "Login" button of the logged-out screen reveals the form. */
    method OpenForm()
      modifies this
      ensures showForm
      ensures isLoggedIn == old(isLoggedIn) && email == old(email) && password == old(password) && stored == old(stored)
    {
      showForm := true;
    }

    /** Typing into the email field. */
    method EditEmail(value: string)
      modifies this
      ensures email == value
      ensures isLoggedIn == old(isLoggedIn) && showForm == old(showForm) && password == old(password) && stored == old(stored)
    {
      email := value;
    }

    /** Typing into the password field. */
    method EditPassword(value: string)
      modifies this
      ensures password == value
      ensures isLoggedIn == old(isLoggedIn) && showForm == old(showForm) && email == old(email) && stored == old(stored)
    {
      password := value;
    }

    /** `handleLogin`: succeeds only when both trimmed fields are non-empty; otherwise nothing changes. */
    method HandleLogin()
      modifies this
      ensures Accepts(old(email), old(password)) ==> stored == Some(AuthFlag) && isLoggedIn && !showForm
      ensures !Accepts(old(email), old(password)) ==>
        stored == old(stored) && isLoggedIn == old(isLoggedIn) && showForm == old(showForm)
      ensures email == old(email) && password == old(password)
    {
      if Accepts(email, password) {
        stored := Some(AuthFlag);
        isLoggedIn := true;
        showForm := false;
      }
    }

    /** `handleLogout`: the flag is removed and the fields cleared; `showForm` is left as it was. */
    method HandleLogout()
      modifies this
      ensures stored.None? && !isLoggedIn && email == "" && password == ""
      ensures showForm == old(showForm)
    {
      stored := None;
      isLoggedIn := false;
      email, password := "", "";
    }
  }
}
