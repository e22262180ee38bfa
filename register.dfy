/** `Register`: the sign-up form's field rules, the email pattern
    `^[^ ]+@[^ ]+\.[a-z]{2,3}$`, and the gate in front of the request. */
module Register {
  import opened Js

  datatype RegisterForm = RegisterForm(name: string, email: string, password: string, confirm: string)

  /** No character is a plain space (the pattern's `[^ ]`). */
  predicate NoSpace(s: string)
  {
    forall i :: 0 <= i < |s| ==> s[i] != ' '
  }

  predicate AllLower(s: string)
  {
    forall i :: 0 <= i < |s| ==> IsLowerAscii(s[i])
  }

  /** What the pattern matches: `a@b.t` with `a` and `b` non-empty and free of
      spaces (either may itself hold `@` or `.`), and `t` two or three
      lower-case letters that end the string. */
  ghost predicate EmailShape(s: string)
  {
    exists i, j :: 0 < i && i + 1 < j < |s| && s[i] == '@' && s[j] == '.' &&
      NoSpace(s[..i]) && NoSpace(s[i + 1..j]) &&
      2 <= |s| - j - 1 <= 3 && AllLower(s[j + 1..])
  }

  /** The pattern with a top-level domain of exactly `n` letters: the dot sits
      `n` from the end, and before it comes a space-free text with an `@`
      that is neither its first nor its last character. */
  predicate EmailWithTld(s: string, n: nat)
  {
    |s| >= n + 4 &&
    var j := |s| - n - 1;
    s[j] == '.' && AllLower(s[j + 1..]) && NoSpace(s[..j]) &&
    exists i :: 0 < i < j - 1 && s[i] == '@'
  }

  /** `emailPattern.test(email)`. */
  predicate EmailValid(s: string)
  {
    EmailWithTld(s, 2) || EmailWithTld(s, 3)
  }

  /** The check computes the pattern: it accepts exactly the strings of its shape. */
  lemma EmailValidSpec(s: string)
    ensures EmailValid(s) <==> EmailShape(s)
  {
    if EmailShape(s) {
      var i, j :| 0 < i && i + 1 < j < |s| && s[i] == '@' && s[j] == '.' &&
        NoSpace(s[..i]) && NoSpace(s[i + 1..j]) &&
        2 <= |s| - j - 1 <= 3 && AllLower(s[j + 1..]);
      forall k | 0 <= k < j ensures s[..j][k] != ' ' {
        if k < i { assert s[k] == s[..i][k]; }
        else if k > i { assert s[k] == s[i + 1..j][k - i - 1]; }
      }
      assert EmailWithTld(s, |s| - j - 1);
    }
    if EmailValid(s) {
      var n := if EmailWithTld(s, 2) then 2 else 3;
      var j := |s| - n - 1;
      var i :| 0 < i < j - 1 && s[i] == '@';
      assert NoSpace(s[..i]) by {
        forall k | 0 <= k < i ensures s[..i][k] != ' ' { assert s[..i][k] == s[..j][k]; }
      }
      var b := s[i + 1..j];
      assert NoSpace(b) by {
        forall k | 0 <= k < |b| ensures b[k] != ' ' { assert b[k] == s[..j][i + 1 + k]; }
      }
    }
  }

  /** A few strings the pattern accepts and rejects. */
  lemma EmailExamples()
    ensures EmailValid("a@b.co")
    ensures EmailValid("x.y@shop.in.com")
    ensures !EmailValid("a@b.c")
    ensures !EmailValid("a@b.Com")
    ensures !EmailValid("a b@c.de")
    ensures !EmailValid("@b.com")
  {
    assert "a@b.co"[1] == '@';
    assert "x.y@shop.in.com"[3] == '@';
    assert "a b@c.de"[..5][1] == ' ';
  }

  /** The single password error, if any: the checks run in order and the first
      that fails is reported. */
  function PasswordError(p: string): (e: Option<string>)
    ensures p == "" ==> e == Some("Password is required")
    ensures p != "" && |p| < 8 ==> e == Some("Password must be 8+ chars")
    ensures |p| >= 8 && IsLowerAscii(p[0]) ==> e == Some("Password must start with uppercase")
    ensures |p| >= 8 && !IsLowerAscii(p[0]) ==> e == None
  {
    if p == "" then Some("Password is required")
    else if |p| < 8 then Some("Password must be 8+ chars")
    else if p[0] != UpperChar(p[0]) then Some("Password must start with uppercase")
    else None
  }

  /** `validate()`: fills the errors dictionary field by field, then reports
      whether it stayed empty. */
  method Validate(form: RegisterForm) returns (errors: map<string, string>, ok: bool)
    ensures errors.Keys <= {"name", "email", "password", "confirm"}
    ensures "name" in errors <==> form.name == ""
    ensures "name" in errors ==> errors["name"] == "Name is required"
    ensures form.email == "" ==> "email" in errors && errors["email"] == "Email is required"
    ensures form.email != "" && !EmailShape(form.email) ==> "email" in errors && errors["email"] == "Invalid email"
    ensures form.email != "" && EmailShape(form.email) ==> "email" !in errors
    ensures PasswordError(form.password).None? ==> "password" !in errors
    ensures PasswordError(form.password).Some? ==> "password" in errors && errors["password"] == PasswordError(form.password).value
    ensures form.confirm == "" ==> "confirm" in errors && errors["confirm"] == "Confirm password is required"
    ensures form.confirm != "" && form.password != form.confirm ==> "confirm" in errors && errors["confirm"] == "Passwords do not match"
    ensures form.confirm != "" && form.password == form.confirm ==> "confirm" !in errors
    ensures ok <==> |errors| == 0
  {
    EmailValidSpec(form.email);
    errors := map[];
    if form.name == "" {
      errors := errors["name" := "Name is required"];
    }
    if form.email == "" {
      errors := errors["email" := "Email is required"];
    } else if !EmailValid(form.email) {
      errors := errors["email" := "Invalid email"];
    }
    if form.password == "" {
      errors := errors["password" := "Password is required"];
    } else if |form.password| < 8 {
      errors := errors["password" := "Password must be 8+ chars"];
    } else if form.password[0] != UpperChar(form.password[0]) {
      errors := errors["password" := "Password must start with uppercase"];
    }
    if form.confirm == "" {
      errors := errors["confirm" := "Confirm password is required"];
    } else if form.password != form.confirm {
      errors := errors["confirm" := "Passwords do not match"];
    }
    ok := |errors| == 0;
  }

  /** A form is accepted exactly when every field passes its rule. */
  ghost predicate Acceptable(form: RegisterForm)
  {
    form.name != "" && form.email != "" && EmailShape(form.email) &&
    PasswordError(form.password).None? && form.confirm != "" && form.password == form.confirm
  }

  /** The outcome of `handleSubmit`; whether the email is already registered
      is the answer of the server. */
  datatype SubmitOutcome = Invalid | EmailTaken | Registered(name: string, email: string, password: string)

  method HandleSubmit(form: RegisterForm, emailTaken: bool) returns (outcome: SubmitOutcome)
    ensures !Acceptable(form) <==> outcome == Invalid
    ensures Acceptable(form) && emailTaken ==> outcome == EmailTaken
    ensures Acceptable(form) && !emailTaken ==> outcome == Registered(form.name, form.email, form.password)
  {
    var errors, ok := Validate(form);
    if !ok {
      return Invalid;
    }
    if emailTaken {
      return EmailTaken;
    }
    outcome := Registered(form.name, form.email, form.password);
  }
}
