/**
 The doctor portal's header: the avatar's initials and the labels of the
 account menu, with their fallbacks.
 */
module DoctorHeader {
  import opened Common
  import opened Text

  /**
   The `name` field as the header finds it at run time: missing or falsy,
   a truthy value that is not a string, or a string.
   */
  datatype NameValue = NoName | NotAString | Str(s: string)

  datatype HeaderUser = HeaderUser(name: NameValue, email: Option<string>, avatar: Option<string>)

  const FallbackInitials: string := "DR"
  const FallbackName: string := "Dr. Sarah Johnson"
  const FallbackEmail: string := "sarah.johnson@hospital.com"
  const FallbackAvatar: string := "/doctor-avatar.png"

  /**
   The first character of every piece, in order; an empty piece has no
   first character (`n[0]` is undefined and joins as nothing).
   */
  function FirstChars(pieces: seq<string>): (r: string)
    ensures |r| <= |pieces|
  {
    if pieces == [] then []
    else (if pieces[0] == [] then [] else [pieces[0][0]]) + FirstChars(pieces[1..])
  }

  /** `name.split(" ").map((n) => n[0]).join("").toUpperCase()` */
  function InitialsOf(name: string): string
  {
    Upper(FirstChars(Split(name, " ")))
  }

  /** The avatar fallback text. */
  function Initials(user: Option<HeaderUser>): (r: string)
    ensures (user.None? || !user.value.name.Str? || user.value.name.s == "") ==> r == FallbackInitials
    ensures user.Some? && user.value.name.Str? && user.value.name.s != "" ==>
      r == Upper(WordStarts(user.value.name.s, true))
  {
    match user
    case Some(HeaderUser(Str(s), _, _)) =>
      if s != "" then
        SplitInitialsAreWordStarts(s, true);
        InitialsOf(s)
      else FallbackInitials
    case _ => FallbackInitials
  }

  /**
   The characters that begin a word of `s`: a non-space character at the
   start (when `atStart`) or right after a space. This reads the string
   left to right without splitting it.
   */
  function WordStarts(s: string, atStart: bool): (r: string)
    ensures |r| <= |s|
  {
    if s == [] then []
    else (if s[0] != ' ' && atStart then [s[0]] else []) + WordStarts(s[1..], s[0] == ' ')
  }

  /** Initials are characters of the name, never spaces. */
  lemma {:induction false} WordStartsFromName(s: string, atStart: bool)
    ensures forall i :: 0 <= i < |WordStarts(s, atStart)| ==>
      WordStarts(s, atStart)[i] != ' ' && WordStarts(s, atStart)[i] in s
    decreases |s|
  {
    if s != [] {
      WordStartsFromName(s[1..], s[0] == ' ');
      var head: string := if s[0] != ' ' && atStart then [s[0]] else [];
      var tail := WordStarts(s[1..], s[0] == ' ');
      assert WordStarts(s, atStart) == head + tail;
      forall i | 0 <= i < |head + tail|
        ensures (head + tail)[i] != ' ' && (head + tail)[i] in s
      {
        if i >= |head| {
          assert (head + tail)[i] == tail[i - |head|];
          assert tail[i - |head|] in s[1..];
        }
      }
    }
  }

  lemma FirstCharsCons(p: string, rest: seq<string>)
    ensures FirstChars([p] + rest) == (if p == [] then [] else [p[0]]) + FirstChars(rest)
  {
    assert ([p] + rest)[1..] == rest;
  }

  /**
   Taking the first character of every space-separated piece picks exactly
   the characters that begin a word. When the string does not start at a
   word boundary, its first piece continues an earlier word and is skipped.
   */
  lemma {:induction false} SplitInitialsAreWordStarts(s: string, atStart: bool)
    ensures atStart ==> FirstChars(Split(s, " ")) == WordStarts(s, true)
    ensures !atStart ==> FirstChars(Split(s, " ")[1..]) == WordStarts(s, false)
    decreases |s|
  {
    if s == [] {
    } else if StartsWith(s, " ") {
      assert s[0] == ' ' by { assert s[..1] == " "; }
      SplitInitialsAreWordStarts(s[1..], true);
      FirstCharsCons("", Split(s[1..], " "));
    } else {
      assert s[0] != ' ';
      var rest := Split(s[1..], " ");
      SplitInitialsAreWordStarts(s[1..], false);
      FirstCharsCons([s[0]] + rest[0], rest[1..]);
      assert Split(s, " ")[1..] == rest[1..];
    }
  }

  /** A leading space does not change the initials. */
  lemma LeadingSpaceIgnored(b: string)
    ensures WordStarts(" " + b, true) == WordStarts(b, true)
  {
    assert (" " + b)[1..] == b;
  }

  /** A trailing space does not change the initials. */
  lemma {:induction false} TrailingSpaceIgnored(a: string, atStart: bool)
    ensures WordStarts(a + " ", atStart) == WordStarts(a, atStart)
    decreases |a|
  {
    if a == [] {
      assert a + " " == " ";
      assert " "[1..] == [];
    } else {
      TrailingSpaceIgnored(a[1..], a[0] == ' ');
      assert (a + " ")[1..] == a[1..] + " ";
    }
  }

  /** Two spaces in a row give the same initials as one. */
  lemma {:induction false} DoubleSpaceIgnored(a: string, b: string, atStart: bool)
    ensures WordStarts(a + " " + " " + b, atStart) == WordStarts(a + " " + b, atStart)
    decreases |a|
  {
    if a == [] {
      assert (a + " " + " " + b)[1..] == " " + b;
      assert (a + " " + b)[1..] == b;
      LeadingSpaceIgnored(b);
    } else {
      DoubleSpaceIgnored(a[1..], b, a[0] == ' ');
      assert (a + " " + " " + b)[1..] == a[1..] + " " + " " + b;
      assert (a + " " + b)[1..] == a[1..] + " " + b;
    }
  }

  /** The name label: the name when it is truthy, otherwise the default doctor. */
  function NameLabel(user: Option<HeaderUser>): (r: string)
    requires user.Some? ==> !user.value.name.NotAString?
    ensures user.Some? && user.value.name.Str? && user.value.name.s != "" ==> r == user.value.name.s
    ensures user.None? || user.value.name == NoName || user.value.name == Str("") ==> r == FallbackName
  {
    match user
    case Some(HeaderUser(Str(s), _, _)) => if s != "" then s else FallbackName
    case _ => FallbackName
  }

  /** The e-mail label. */
  function EmailLabel(user: Option<HeaderUser>): (r: string)
    ensures user.Some? && Truthy(user.value.email) ==> r == user.value.email.value
    ensures !(user.Some? && Truthy(user.value.email)) ==> r == FallbackEmail
  {
    match user
    case Some(u) => OrElse(u.email, FallbackEmail)
    case None => FallbackEmail
  }

  /** The avatar image. */
  function AvatarSource(user: Option<HeaderUser>): (r: string)
    ensures user.Some? && Truthy(user.value.avatar) ==> r == user.value.avatar.value
    ensures !(user.Some? && Truthy(user.value.avatar)) ==> r == FallbackAvatar
  {
    match user
    case Some(u) => OrElse(u.avatar, FallbackAvatar)
    case None => FallbackAvatar
  }

  /** A signed-out header shows the default doctor throughout. */
  lemma SignedOutDefaults()
    ensures Initials(None) == "DR" && NameLabel(None) == FallbackName
    ensures EmailLabel(None) == FallbackEmail && AvatarSource(None) == FallbackAvatar
  {
  }

  lemma SampleWordStarts()
    ensures WordStarts(" Jo  li ", true) == "Jl"
  {
    assert " "[1..] == "";
    assert WordStarts(" ", false) == [];
    assert "i "[1..] == " ";
    assert WordStarts("i ", false) == [];
    assert "li "[1..] == "i ";
    assert WordStarts("li ", true) == "l";
    assert " li "[1..] == "li ";
    assert WordStarts(" li ", true) == "l";
    assert "  li "[1..] == " li ";
    assert WordStarts("  li ", false) == "l";
    assert "o  li "[1..] == "  li ";
    assert WordStarts("o  li ", false) == "l";
    assert "Jo  li "[1..] == "o  li ";
    assert WordStarts("Jo  li ", true) == "Jl";
    assert " Jo  li "[1..] == "Jo  li ";
  }

  lemma SampleUpper()
    ensures Upper("Jl") == "JL"
  {
    assert "Jl"[1..] == "l";
    assert "l"[1..] == "";
  }

  /** " Jo  li " gets the initials "JL": the empty pieces add nothing. */
  lemma SampleInitials()
    ensures Initials(Some(HeaderUser(Str(" Jo  li "), None, None))) == "JL"
  {
    SampleWordStarts();
    SampleUpper();
  }
}
