/**
 * The per-step field rules of `validateStep` (app/page.tsx lines 286-337): the primary
 * contact (step 0) needs a name, a well-formed email, a phone number and an about text;
 * every friend (step 1 and beyond) needs a name and an about text.
 */
module Validation {
  import opened Text
  import opened Entries

  /** `!s.trim()`: the field counts as empty. */
  predicate IsEmpty(s: string) {
    Trim(s) == ""
  }

  // ---------------------------------------------------------------- email

  /** One run of `[^\s@]`: characters that are neither whitespace nor `@`. */
  ghost predicate Plain(t: string) {
    forall k :: 0 <= k < |t| ==> !IsSpace(t[k]) && t[k] != '@'
  }

  /** The pattern `^[^\s@]+@[^\s@]+\.[^\s@]+$`, read as the regular expression reads it:
      three non-empty plain runs separated by an `@` and then a dot. */
  ghost predicate MatchesEmailPattern(s: string) {
    exists i, j :: 0 < i && i + 1 < j < |s| - 1 && s[i] == '@' && s[j] == '.'
      && Plain(s[..i]) && Plain(s[i + 1..j]) && Plain(s[j + 1..])
  }

  /** Position of the first `@`, or `|s|` when there is none. */
  function FirstAt(s: string): (i: nat)
    ensures i <= |s|
    ensures i < |s| ==> s[i] == '@'
    ensures forall k :: 0 <= k < i ==> s[k] != '@'
  {
    if s == [] || s[0] == '@' then 0 else 1 + FirstAt(s[1..])
  }

  /** A direct test of the email pattern: no whitespace, exactly one `@` with something
      before it, and a dot after it with at least one character on each side. */
  predicate IsEmail(s: string)
    ensures IsEmail(s) ==> 5 <= |s| && !Blank(s)
    ensures IsEmail(s) ==> forall k :: 0 <= k < |s| && s[k] == '@' ==> k == FirstAt(s)
  {
    var i := FirstAt(s);
    && (forall k :: 0 <= k < |s| ==> !IsSpace(s[k]))
    && 0 < i < |s|
    && (forall k :: i < k < |s| ==> s[k] != '@')
    && (exists j :: i + 1 < j < |s| - 1 && s[j] == '.')
  }

  /** The direct test accepts exactly the strings the regular expression matches. */
  lemma EmailTestMatchesPattern(s: string)
    ensures IsEmail(s) <==> MatchesEmailPattern(s)
  {
    if IsEmail(s) {
      EmailTestSound(s);
    }
    if MatchesEmailPattern(s) {
      var i, j :| 0 < i && i + 1 < j < |s| - 1 && s[i] == '@' && s[j] == '.'
        && Plain(s[..i]) && Plain(s[i + 1..j]) && Plain(s[j + 1..]);
      EmailTestComplete(s, i, j);
    }
  }

  lemma EmailTestSound(s: string)
    requires IsEmail(s)
    ensures MatchesEmailPattern(s)
  {
    var i := FirstAt(s);
    var j :| i + 1 < j < |s| - 1 && s[j] == '.';
    assert Plain(s[..i]);
    assert Plain(s[i + 1..j]);
    assert Plain(s[j + 1..]);
  }

  lemma EmailTestComplete(s: string, i: int, j: int)
    requires 0 < i && i + 1 < j < |s| - 1 && s[i] == '@' && s[j] == '.'
    requires Plain(s[..i]) && Plain(s[i + 1..j]) && Plain(s[j + 1..])
    ensures IsEmail(s)
  {
    forall k | 0 <= k < |s|
      ensures !IsSpace(s[k]) && (k != i ==> s[k] != '@')
    {
      if k < i {
        assert s[k] == s[..i][k];
      } else if i < k < j {
        assert s[k] == s[i + 1..j][k - i - 1];
      } else if j < k {
        assert s[k] == s[j + 1..][k - j - 1];
      }
    }
    assert FirstAt(s) == i;
  }

  /** Three addresses the email test decides (app/page.tsx line 292). */
  lemma EmailExamples()
    ensures IsEmail("foo@bar.com")
    ensures !IsEmail("foo") && !IsEmail("foo@bar")
  {
    AcceptsFullAddress();
    RejectsMissingDomain();
  }

  lemma AcceptsFullAddress()
    ensures IsEmail("foo@bar.com")
  {
    assert Plain("foo") && Plain("bar") && Plain("com");
    EmailFromParts("foo", "bar", "com");
    assert "foo" + "@" + "bar" + "." + "com" == "foo@bar.com";
  }

  lemma RejectsMissingDomain()
    ensures !IsEmail("foo") && !IsEmail("foo@bar")
  {
    assert FirstAt("foo@bar") == 3 by {
      assert "foo@bar"[1..] == "oo@bar" && "oo@bar"[1..] == "o@bar" && "o@bar"[1..] == "@bar";
    }
  }

  /** Three non-empty plain runs joined by an `@` and a dot form an email address. */
  lemma EmailFromParts(user: string, host: string, tld: string)
    requires user != [] && host != [] && tld != []
    requires Plain(user) && Plain(host) && Plain(tld)
    ensures IsEmail(user + "@" + host + "." + tld)
  {
    var s := user + "@" + host + "." + tld;
    var i, j := |user|, |user| + 1 + |host|;
    assert s[..i] == user;
    assert s[i + 1..j] == host;
    assert s[j + 1..] == tld;
    EmailTestComplete(s, i, j);
  }

  // ---------------------------------------------------------------- steps

  /** The rule `validateStep` enforces for the entry at `step`. */
  predicate StepValid(e: GuestEntry, step: int)
    ensures StepValid(e, step) ==> e.name != "" && e.about != ""
    ensures StepValid(e, step) && step == 0 ==> e.email != "" && e.phone != "" && IsEmail(e.email)
  {
    if step == 0 then
      !IsEmpty(e.name) && !IsEmpty(e.email) && IsEmail(e.email) && !IsEmpty(e.phone) && !IsEmpty(e.about)
    else
      !IsEmpty(e.name) && !IsEmpty(e.about)
  }

  /** The fields `validateStep` flags for the entry at `step`. */
  function Failing(e: GuestEntry, step: int): (r: Flags)
    ensures r == NoFlags <==> StepValid(e, step)
    ensures step != 0 ==> !r.email && !r.phone
  {
    Flags(
      IsEmpty(e.name),
      step == 0 && (IsEmpty(e.email) || !IsEmail(e.email)),
      step == 0 && IsEmpty(e.phone),
      IsEmpty(e.about))
  }

  /** The flags after validation: failing fields are raised, nothing is lowered. */
  function Raise(current: Flags, failing: Flags): (r: Flags)
    ensures forall f :: r.Get(f) == (current.Get(f) || failing.Get(f))
  {
    Flags(current.name || failing.name, current.email || failing.email,
          current.phone || failing.phone, current.about || failing.about)
  }

  /** Blank means all whitespace: the step rule stated without `trim`. */
  lemma StepValidWithoutTrim(e: GuestEntry, step: int)
    ensures StepValid(e, step) <==>
      if step == 0 then !Blank(e.name) && MatchesEmailPattern(e.email) && !Blank(e.phone) && !Blank(e.about)
      else !Blank(e.name) && !Blank(e.about)
  {
    var n, m, p, a := e.name, e.email, e.phone, e.about;
    TrimEmptyIffBlank(n);
    TrimEmptyIffBlank(p);
    TrimEmptyIffBlank(a);
    EmailFieldRule(m);
    assert (!IsEmpty(m) && IsEmail(m)) == MatchesEmailPattern(m);
    assert IsEmpty(n) == Blank(n) && IsEmpty(p) == Blank(p) && IsEmpty(a) == Blank(a);
  }

  /** The two email checks together are exactly the pattern: a match is never blank. */
  lemma EmailFieldRule(s: string)
    ensures (!IsEmpty(s) && IsEmail(s)) <==> MatchesEmailPattern(s)
  {
    TrimEmptyIffBlank(s);
    EmailTestMatchesPattern(s);
    if IsEmail(s) {
      assert !IsSpace(s[0]);
    }
  }
}
