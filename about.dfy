/**
 * The team cards of the about page: each member's avatar shows the
 * initials of their name, `name.split(" ").map(n => n[0]).join("")`.
 */
module About {
  import opened Text

  const TeamNames: seq<string> := ["XAFEER KHAN", "MUSTAFA", "ABDULLAH HUSSAIN"]

  /** `n[0]` as `join` renders it: the first character, and "" for an
      empty piece, whose `n[0]` is `undefined`. */
  function FirstChar(part: string): (r: string)
    ensures |r| <= 1
    ensures r == "" <==> part == ""
    ensures r != "" ==> r[0] == part[0]
  {
    if |part| == 0 then "" else [part[0]]
  }

  /** The initials of a list of name parts. */
  function InitialsOf(parts: seq<string>): string
  {
    Join(seq(|parts|, i requires 0 <= i < |parts| => FirstChar(parts[i])), "")
  }

  /** The initials on a team member's card: initial i is the first
      character of the i-th word, where words are the non-empty
      space-separated parts of the name. */
  function Initials(name: string): (r: string)
    ensures var words := NonEmpty(Split(name, ' '));
            |r| == |words| && forall i :: 0 <= i < |words| ==> r[i] == words[i][0]
  {
    EmptyPartsIgnored(Split(name, ' '));
    InitialPerPart(NonEmpty(Split(name, ' ')));
    InitialsOf(Split(name, ' '))
  }

  /** Peeling off the first part. */
  lemma InitialsOfCons(parts: seq<string>)
    requires |parts| > 0
    ensures InitialsOf(parts) == FirstChar(parts[0]) + InitialsOf(parts[1..])
  {
    var firsts := seq(|parts|, i requires 0 <= i < |parts| => FirstChar(parts[i]));
    assert firsts == [FirstChar(parts[0])] + seq(|parts| - 1, i requires 0 <= i < |parts| - 1 => FirstChar(parts[1..][i]));
    JoinEmptySeparator(FirstChar(parts[0]), firsts[1..]);
  }

  ghost predicate NoEmptyPart(parts: seq<string>)
  {
    forall i :: 0 <= i < |parts| ==> parts[i] != ""
  }

  /** With no empty part, there is one initial per part, and initial i is
      the first character of part i. */
  lemma {:induction false} InitialPerPart(parts: seq<string>)
    requires NoEmptyPart(parts)
    ensures |InitialsOf(parts)| == |parts|
    ensures forall i :: 0 <= i < |parts| ==> InitialsOf(parts)[i] == parts[i][0]
  {
    if |parts| > 0 {
      InitialsOfCons(parts);
      InitialPerPart(parts[1..]);
    }
  }

  /** The non-empty parts, in order. */
  function NonEmpty(parts: seq<string>): (r: seq<string>)
    ensures NoEmptyPart(r)
    ensures forall x :: multiset(r)[x] == if x == "" then 0 else multiset(parts)[x]
  {
    if |parts| == 0 then []
    else
      assert parts == [parts[0]] + parts[1..];
      (if parts[0] == "" then [] else [parts[0]]) + NonEmpty(parts[1..])
  }

  /** Empty parts, from leading, trailing or doubled spaces, add nothing. */
  lemma {:induction false} EmptyPartsIgnored(parts: seq<string>)
    ensures InitialsOf(parts) == InitialsOf(NonEmpty(parts))
  {
    if |parts| > 0 {
      InitialsOfCons(parts);
      EmptyPartsIgnored(parts[1..]);
      if parts[0] != "" {
        assert NonEmpty(parts) == [parts[0]] + NonEmpty(parts[1..]);
        InitialsOfCons(NonEmpty(parts));
        assert NonEmpty(parts)[1..] == NonEmpty(parts[1..]);
      } else {
        assert NonEmpty(parts) == NonEmpty(parts[1..]);
      }
    }
  }

  /** A name with no space gives its first character alone. */
  lemma SingleWordName(name: string)
    requires ' ' !in name
    ensures Initials(name) == FirstChar(name)
  {
    SplitWithoutSeparator(name, ' ');
    InitialsOfCons([name]);
  }

  /** A name of two words separated by one space, at index k, gives two
      initials. */
  lemma TwoWordName(name: string, k: nat)
    requires 0 < k < |name| - 1 && name[k] == ' '
    requires ' ' !in name[..k] && ' ' !in name[k + 1..]
    ensures Initials(name) == [name[0], name[k + 1]]
  {
    var first, last := name[..k], name[k + 1..];
    var parts := [first, last];
    assert name == first + [' '] + last;
    SplitAtFirst(first, last, ' ');
    SplitWithoutSeparator(last, ' ');
    assert Split(name, ' ') == parts;
    InitialPerPart(parts);
    var r := InitialsOf(parts);
    assert |r| == 2 && r[0] == first[0] && r[1] == last[0];
  }

  /** The initials on the founder's card. */
  lemma FounderInitials()
    ensures Initials(TeamNames[0]) == "XK"
  {
    TwoWordName(TeamNames[0], 6);
  }

  /** The initials on the technical director's card. */
  lemma DirectorInitials()
    ensures Initials(TeamNames[1]) == "M"
  {
    SingleWordName(TeamNames[1]);
  }

  /** The initials on the customer-relations card. */
  lemma RelationsInitials()
    ensures Initials(TeamNames[2]) == "AH"
  {
    TwoWordName(TeamNames[2], 8);
  }
}
