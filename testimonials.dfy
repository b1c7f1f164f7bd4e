/**
 * The Testimonials section: the author initials badge and the even/odd
 * alternation of the cards' parallax direction and top margin.
 */
module Testimonials {

  /** The authors of the six testimonials, in display order (quotes, roles and companies are display text). */
  const Authors: seq<string> := [
    "Sarah Chen", "Marcus Johnson", "Emily Rodriguez", "David Park", "Lisa Wong", "James Miller"
  ]

  // ---------------------------------------------------------------------------
  // JavaScript's String.prototype.split with a one-character separator
  // ---------------------------------------------------------------------------

  function CountChar(s: string, c: char): nat
  {
    if s == [] then 0 else (if s[0] == c then 1 else 0) + CountChar(s[1..], c)
  }

  /** `s.split(' ')`: the maximal space-free pieces between spaces, empty pieces included. */
  function Split(s: string): (parts: seq<string>)
    ensures |parts| == CountChar(s, ' ') + 1
    ensures forall k :: 0 <= k < |parts| ==> ' ' !in parts[k]
  {
    if s == [] then [""]
    else if s[0] == ' ' then [""] + Split(s[1..])
    else
      var rest := Split(s[1..]);
      [[s[0]] + rest[0]] + rest[1..]
  }

  /** `parts.join(sep)`. */
  function Join(parts: seq<string>, sep: string): string
  {
    if |parts| == 0 then ""
    else if |parts| == 1 then parts[0]
    else parts[0] + sep + Join(parts[1..], sep)
  }

  /** Splitting on spaces and joining with a space gives the string back. */
  lemma {:induction false} JoinSplit(s: string)
    ensures Join(Split(s), " ") == s
  {
    if s != [] {
      JoinSplit(s[1..]);
      var rest := Split(s[1..]);
      if s[0] == ' ' {
        assert s == " " + s[1..];
      } else if |rest| == 1 {
        assert s == [s[0]] + rest[0];
      } else {
        assert Split(s)[1..] == rest[1..];
        assert Join(rest, " ") == rest[0] + " " + Join(rest[1..], " ");
        assert s == [s[0]] + s[1..];
      }
    }
  }

  // ---------------------------------------------------------------------------
  // Initials
  // ---------------------------------------------------------------------------

  /**
   * `n[0]` for one piece, as `join` renders it: the first character, or the
   * empty string for an empty piece (whose `n[0]` is `undefined`).
   */
  function FirstChar(piece: string): (r: string)
    ensures |r| <= 1
    ensures r == [] <==> piece == []
    ensures r != [] ==> r[0] == piece[0]
  {
    if piece == [] then "" else [piece[0]]
  }

  /** `parts.map(n => n[0]).join('')`. */
  function FirstChars(parts: seq<string>): (r: string)
    ensures |r| <= |parts|
  {
    if parts == [] then "" else FirstChar(parts[0]) + FirstChars(parts[1..])
  }

  /** `author.split(' ').map(n => n[0]).join('')`. */
  function Initials(author: string): (r: string)
    ensures |r| <= CountChar(author, ' ') + 1
  {
    FirstChars(Split(author))
  }

  /**
   * An independent description of the same characters: the non-space
   * characters that start the string or follow a space, in order
   * (`afterSpace` says whether the previous character was a space or absent).
   */
  function WordStarts(s: string, afterSpace: bool): (r: string)
  {
    if s == [] then ""
    else (if afterSpace && s[0] != ' ' then [s[0]] else "") + WordStarts(s[1..], s[0] == ' ')
  }

  /** The initials are exactly the first characters of the non-empty space-separated words. */
  lemma {:induction false} InitialsAreWordStarts(s: string)
    ensures Initials(s) == WordStarts(s, true)
    ensures FirstChars(Split(s)[1..]) == WordStarts(s, false)
  {
    if s != [] {
      InitialsAreWordStarts(s[1..]);
      var rest := Split(s[1..]);
      if s[0] == ' ' {
        assert Split(s) == [""] + rest;
        assert Split(s)[1..] == rest;
      } else {
        assert Split(s)[1..] == rest[1..];
        assert FirstChars(Split(s)) == [s[0]] + FirstChars(rest[1..]);
      }
    }
  }

  /** Every word start is a non-space character of the string. */
  lemma {:induction false} WordStartsFromString(s: string, afterSpace: bool)
    ensures ' ' !in WordStarts(s, afterSpace)
    ensures forall c :: c in WordStarts(s, afterSpace) ==> c in s
  {
    if s != [] {
      WordStartsFromString(s[1..], s[0] == ' ');
      var head: string := if afterSpace && s[0] != ' ' then [s[0]] else "";
      assert WordStarts(s, afterSpace) == head + WordStarts(s[1..], s[0] == ' ');
      forall c | c in WordStarts(s, afterSpace) ensures c in s {
        if c in head {
          assert c == s[0];
        } else {
          assert c in s[1..];
        }
      }
    }
  }

  /** The initials hold no space, only characters of the author's name, and at most one per piece. */
  lemma InitialsShape(author: string)
    ensures ' ' !in Initials(author)
    ensures forall c :: c in Initials(author) ==> c in author
    ensures |Initials(author)| <= CountChar(author, ' ') + 1
  {
    InitialsAreWordStarts(author);
    WordStartsFromString(author, true);
  }

  /** A name made of words separated by single spaces, without leading or trailing space. */
  predicate WellSpaced(s: string)
  {
    && s != [] && s[0] != ' ' && s[|s| - 1] != ' '
    && forall i :: 0 <= i < |s| - 1 && s[i] == ' ' ==> s[i + 1] != ' '
  }

  lemma {:induction false} WordStartsCount(s: string, afterSpace: bool)
    requires s == [] || s[|s| - 1] != ' '
    requires forall i :: 0 <= i < |s| - 1 && s[i] == ' ' ==> s[i + 1] != ' '
    ensures |WordStarts(s, afterSpace)| ==
      CountChar(s, ' ') + (if afterSpace && s != [] && s[0] != ' ' then 1 else 0)
  {
    if s != [] {
      var t := s[1..];
      assert forall i :: 0 <= i < |t| - 1 && t[i] == ' ' ==> t[i + 1] != ' ' by {
        forall i | 0 <= i < |t| - 1 && t[i] == ' ' ensures t[i + 1] != ' ' {
          assert s[i + 1] == ' ';
        }
      }
      WordStartsCount(t, s[0] == ' ');
      if s[0] == ' ' {
        assert t != [] && t[0] == s[1] && s[1] != ' ';
      }
    }
  }

  /** For a well-spaced name there is one initial per word. */
  lemma InitialsCountWords(author: string)
    requires WellSpaced(author)
    ensures |Initials(author)| == CountChar(author, ' ') + 1
  {
    InitialsAreWordStarts(author);
    WordStartsCount(author, true);
  }

  /** A space-free word followed by a space splits off as the first piece. */
  lemma {:induction false} SplitWord(w: string, t: string)
    requires ' ' !in w
    ensures Split(w + " " + t) == [w] + Split(t)
    ensures Split(w) == [w]
  {
    if w != [] {
      SplitWord(w[1..], t);
      assert (w + " " + t)[1..] == w[1..] + " " + t;
      assert [w[0]] + w[1..] == w;
    } else {
      assert w + " " + t == " " + t;
    }
  }

  /** A two-word name gets the first letter of each word. */
  lemma TwoWordInitials(first: string, last: string)
    requires first != [] && last != [] && ' ' !in first && ' ' !in last
    ensures Initials(first + " " + last) == [first[0], last[0]]
  {
    SplitWord(first, last);
    SplitWord(last, "");
    assert FirstChars([last]) == [last[0]];
  }

  lemma AuthorBadge(k: nat, first: string, last: string)
    requires k < |Authors| && Authors[k] == first + " " + last
    requires first != [] && last != [] && ' ' !in first && ' ' !in last
    ensures Initials(Authors[k]) == [first[0], last[0]]
  {
    TwoWordInitials(first, last);
  }

  /** Every author of the table gets a two-letter badge. */
  lemma AuthorBadges()
    ensures forall k :: 0 <= k < |Authors| ==> |Initials(Authors[k])| == 2
  {
    forall k | 0 <= k < |Authors| ensures |Initials(Authors[k])| == 2 {
      if k == 0 { AuthorBadge(k, "Sarah", "Chen"); }
      else if k == 1 { AuthorBadge(k, "Marcus", "Johnson"); }
      else if k == 2 { AuthorBadge(k, "Emily", "Rodriguez"); }
      else if k == 3 { AuthorBadge(k, "David", "Park"); }
      else if k == 4 { AuthorBadge(k, "Lisa", "Wong"); }
      else { AuthorBadge(k, "James", "Miller"); }
    }
  }

  /** A leading space adds an empty piece, which contributes nothing. */
  lemma LeadingSpaceIgnored(s: string)
    ensures Initials(" " + s) == Initials(s)
  {
    assert (" " + s)[1..] == s;
    assert Split(" " + s) == [""] + Split(s);
  }

  lemma {:induction false} WordStartsDoubledSpace(u: string, t: string, afterSpace: bool)
    ensures WordStarts(u + "  " + t, afterSpace) == WordStarts(u + " " + t, afterSpace)
  {
    if u == [] {
      assert ("  " + t)[1..] == " " + t;
      assert (" " + t)[1..] == t;
    } else {
      assert (u + "  " + t)[1..] == u[1..] + "  " + t;
      assert (u + " " + t)[1..] == u[1..] + " " + t;
      WordStartsDoubledSpace(u[1..], t, u[0] == ' ');
    }
  }

  /** A doubled space adds an empty piece, which contributes nothing. */
  lemma DoubledSpaceIgnored(u: string, t: string)
    ensures Initials(u + "  " + t) == Initials(u + " " + t)
  {
    InitialsAreWordStarts(u + "  " + t);
    InitialsAreWordStarts(u + " " + t);
    WordStartsDoubledSpace(u, t, true);
  }

  lemma {:induction false} WordStartsTrailingSpace(s: string, afterSpace: bool)
    ensures WordStarts(s + " ", afterSpace) == WordStarts(s, afterSpace)
  {
    if s != [] {
      assert (s + " ")[1..] == s[1..] + " ";
      WordStartsTrailingSpace(s[1..], s[0] == ' ');
    }
  }

  /** A trailing space adds an empty piece, which contributes nothing; the empty name has no initials. */
  lemma TrailingSpaceIgnored(s: string)
    ensures Initials(s + " ") == Initials(s)
    ensures Initials("") == ""
  {
    InitialsAreWordStarts(s);
    InitialsAreWordStarts(s + " ");
    WordStartsTrailingSpace(s, true);
  }

  // ---------------------------------------------------------------------------
  // Alternation of the grid
  // ---------------------------------------------------------------------------

  /** Card `index` is in the left column of the two-column grid. */
  predicate IsLeft(index: nat)
    ensures IsLeft(index) <==> index == 2 * (index / 2)
  {
    index % 2 == 0
  }

  /** The vertical parallax target of card `index`, in pixels. */
  function ParallaxY(index: nat): (y: int)
    ensures y == -12 <==> IsLeft(index)
    ensures y == -12 || y == 12
  {
    if IsLeft(index) then -12 else 12
  }

  /** The top-margin class of card `index` at the medium breakpoint. */
  function MarginClass(index: nat): (c: string)
    ensures c == "md:mt-0" <==> IsLeft(index)
    ensures c == "md:mt-0" || c == "md:mt-8"
  {
    if IsLeft(index) then "md:mt-0" else "md:mt-8"
  }

  /** Neighbouring cards drift in opposite directions and alternate their margin. */
  lemma NeighboursAlternate(index: nat)
    ensures ParallaxY(index + 1) == -ParallaxY(index)
    ensures MarginClass(index + 1) != MarginClass(index)
    ensures ParallaxY(index + 2) == ParallaxY(index)
  {
  }
}
