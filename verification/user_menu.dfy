/**
 * The account button of the dashboard (blingo/app/dashboards/_components/UserMenu.tsx): it
 * shows nothing without a signed-in user, and otherwise the user's picture or, failing that,
 * up to two initials taken from the user's name.
 *
 * Upper-casing is modelled for ASCII letters only, and a "character" is a `char`.
 */
module UserMenu {
  import opened Wrappers

  /** JavaScript's `split(" ")`: the pieces between single spaces, empty pieces included. */
  function SplitOnSpace(s: string): (r: seq<string>)
    ensures |r| >= 1
    ensures forall i :: 0 <= i < |r| ==> ' ' !in r[i]
  {
    if s == [] then [""]
    else
      var rest := SplitOnSpace(s[1..]);
      if s[0] == ' ' then [""] + rest
      else [[s[0]] + rest[0]] + rest[1..]
  }

  /** The pieces joined back with single spaces. */
  function JoinWithSpace(words: seq<string>): string
    requires |words| >= 1
  {
    if |words| == 1 then words[0] else words[0] + " " + JoinWithSpace(words[1..])
  }

  /** Splitting loses nothing: joining the pieces gives back the name. */
  lemma {:induction false} SplitJoinRoundTrip(s: string)
    ensures JoinWithSpace(SplitOnSpace(s)) == s
    decreases |s|
  {
    if s != [] {
      var rest := SplitOnSpace(s[1..]);
      SplitJoinRoundTrip(s[1..]);
      if s[0] == ' ' {
        assert [""] + rest == [""] + rest;
        assert ([""] + rest)[1..] == rest;
      } else {
        var r := [[s[0]] + rest[0]] + rest[1..];
        assert r[1..] == rest[1..];
        if |rest| > 1 {
          assert JoinWithSpace(rest) == rest[0] + " " + JoinWithSpace(rest[1..]);
        }
      }
    }
  }

  /** `map(n => n[0]).join("")`: the first character of every non-empty piece (an empty piece adds nothing). */
  function FirstChars(words: seq<string>): (r: string)
    ensures |r| <= |words|
  {
    if words == [] then ""
    else (if words[0] == "" then "" else [words[0][0]]) + FirstChars(words[1..])
  }

  /** `toUpperCase`, for ASCII letters. */
  function UpperChar(c: char): char {
    if 'a' <= c <= 'z' then (c as int - 32) as char else c
  }

  function Upper(s: string): (r: string)
    ensures |r| == |s| && forall i :: 0 <= i < |s| ==> r[i] == UpperChar(s[i])
  {
    seq(|s|, i requires 0 <= i < |s| => UpperChar(s[i]))
  }

  /** The initials: up to two upper-cased first characters of the name's words, or "U" when that is empty. */
  function Initials(name: Option<string>): (r: string)
    ensures 1 <= |r| <= 2
    ensures name.None? ==> r == "U"
    ensures var letters := if name.Some? then Upper(FirstChars(SplitOnSpace(name.value))) else "";
      (letters == "" ==> r == "U") && (letters != "" ==> |r| <= |letters| && r == letters[..|r|])
  {
    var letters := if name.Some? then Upper(FirstChars(SplitOnSpace(name.value))) else "";
    var cut := if |letters| <= 2 then letters else letters[..2];
    if cut == "" then "U" else cut
  }

  /**
   * The same letters read straight off the name: each non-space character that opens the name
   * or follows a space. `atStart` says whether the previous character was a space (or none).
   */
  function WordStartChars(s: string, atStart: bool): (r: string)
    ensures |r| <= |s|
  {
    if s == [] then ""
    else (if atStart && s[0] != ' ' then [s[0]] else "") + WordStartChars(s[1..], s[0] == ' ')
  }

  /** Taking the first character of every piece is reading off the characters that start a word. */
  lemma {:induction false} FirstCharsAreWordStarts(s: string)
    ensures FirstChars(SplitOnSpace(s)) == WordStartChars(s, true)
    ensures FirstChars(SplitOnSpace(s)[1..]) == WordStartChars(s, false)
    decreases |s|
  {
    if s != [] {
      var rest := SplitOnSpace(s[1..]);
      FirstCharsAreWordStarts(s[1..]);
      if s[0] == ' ' {
        assert SplitOnSpace(s) == [""] + rest;
        assert ([""] + rest)[1..] == rest;
      } else {
        var split := [[s[0]] + rest[0]] + rest[1..];
        assert SplitOnSpace(s) == split;
        assert split[1..] == rest[1..];
        assert FirstChars(rest) == (if rest[0] == "" then "" else [rest[0][0]]) + FirstChars(rest[1..]);
      }
    }
  }

  /** The initials shown are the first one or two word-starting characters, upper-cased, or "U" when the name has none. */
  lemma InitialsAreWordStarts(name: string)
    ensures var starts := Upper(WordStartChars(name, true));
      (starts == "" ==> Initials(Some(name)) == "U")
      && (starts != "" ==> Initials(Some(name)) == starts[..if |starts| <= 2 then |starts| else 2])
  {
    FirstCharsAreWordStarts(name);
  }

  /** A name made only of spaces (or empty) has no initials of its own. */
  lemma {:induction false} BlankNameHasNoFirstChars(s: string)
    requires forall i :: 0 <= i < |s| ==> s[i] == ' '
    ensures FirstChars(SplitOnSpace(s)) == ""
    decreases |s|
  {
    if s != [] {
      BlankNameHasNoFirstChars(s[1..]);
      assert SplitOnSpace(s) == [""] + SplitOnSpace(s[1..]);
      assert (([""] + SplitOnSpace(s[1..]))[1..]) == SplitOnSpace(s[1..]);
    }
  }

  lemma BlankNameGivesU(s: string)
    requires forall i :: 0 <= i < |s| ==> s[i] == ' '
    ensures Initials(Some(s)) == "U"
  {
    BlankNameHasNoFirstChars(s);
  }

  /** The pieces of two space-free words joined by one space are those two words. */
  lemma SplitTwoWords(a: string, b: string)
    requires ' ' !in a && ' ' !in b
    ensures SplitOnSpace(a + " " + b) == [a, b]
  {
    var rest := " " + b;
    assert a + " " + b == a + rest;
    SplitWordThen(a, rest);
    assert rest[1..] == b;
    SplitWord(b);
  }

  /** A space-free word on its own is one piece. */
  lemma {:induction false} SplitWord(a: string)
    requires ' ' !in a
    ensures SplitOnSpace(a) == [a]
    decreases |a|
  {
    if a != [] {
      assert ' ' !in a[1..] by {
        forall i | 0 <= i < |a[1..]| ensures a[1..][i] != ' ' {
          assert a[1..][i] == a[i + 1];
        }
      }
      SplitWord(a[1..]);
      assert [a[0]] + a[1..] == a;
    }
  }

  /** A space-free word followed by a space starts the pieces with that word. */
  lemma {:induction false} SplitWordThen(a: string, rest: string)
    requires ' ' !in a && rest != [] && rest[0] == ' '
    ensures SplitOnSpace(a + rest) == [a] + SplitOnSpace(rest[1..])
    decreases |a|
  {
    if a == [] {
      assert a + rest == rest;
    } else {
      assert ' ' !in a[1..] by {
        forall i | 0 <= i < |a[1..]| ensures a[1..][i] != ' ' {
          assert a[1..][i] == a[i + 1];
        }
      }
      assert (a + rest)[1..] == a[1..] + rest;
      SplitWordThen(a[1..], rest);
      assert [a[0]] + a[1..] == a;
    }
  }

  /** "first last" gives the upper-cased first letters of both words. */
  lemma TwoWordInitials(first: string, last: string)
    requires first != "" && last != "" && ' ' !in first && ' ' !in last
    ensures Initials(Some(first + " " + last)) == [UpperChar(first[0]), UpperChar(last[0])]
  {
    SplitTwoWords(first, last);
    assert FirstChars([first, last]) == [first[0], last[0]] by {
      assert [first, last][1..] == [last];
      assert [last][1..] == [];
    }
  }

  /** The session's user as the menu sees it. */
  datatype User = User(name: Option<string>, image: Option<string>, email: Option<string>)

  /** The round button: the user's picture when there is one, the initials otherwise. */
  datatype Avatar = Picture(url: string) | Letters(text: string)

  /** The menu renders nothing without a signed-in user. */
  function MenuAvatar(user: Option<User>): (r: Option<Avatar>)
    ensures r.None? <==> user.None?
    ensures r.Some? && r.value.Letters? ==> r.value.text == Initials(user.value.name) && 1 <= |r.value.text| <= 2
    ensures r.Some? ==> (r.value.Picture? <==> user.value.image.Some? && user.value.image.value != "")
  {
    if user.None? then None
    else if user.value.image.Some? && user.value.image.value != "" then Some(Picture(user.value.image.value))
    else Some(Letters(Initials(user.value.name)))
  }
}
