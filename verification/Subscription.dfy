/** Subscription expressions: splitting and trimming "a || b || c". */
module Subscription {
  import opened Basics

  // ---- Trim ----

  function TrimLeft(s: string): string {
    if s != "" && s[0] == ' ' then TrimLeft(s[1..]) else s
  }

  function TrimRight(s: string): string {
    if s != "" && s[|s| - 1] == ' ' then TrimRight(s[..|s| - 1]) else s
  }

  function Trim(s: string): string {
    TrimRight(TrimLeft(s))
  }

  /** find_first_not_of(' '), or the length. */
  function FirstNonSpace(s: string): (n: nat)
    ensures n <= |s| && TrimLeft(s) == s[n..]
  {
    if s != "" && s[0] == ' ' then
      assert s[1..][FirstNonSpace(s[1..])..] == s[1 + FirstNonSpace(s[1..])..];
      1 + FirstNonSpace(s[1..])
    else 0
  }

  /** find_last_not_of(' ') + 1. */
  function AfterLastNonSpace(s: string): (n: nat)
    ensures n <= |s| && TrimRight(s) == s[..n]
  {
    if s != "" && s[|s| - 1] == ' ' then
      assert s[..|s| - 1][..AfterLastNonSpace(s[..|s| - 1])] == s[..AfterLastNonSpace(s[..|s| - 1])];
      AfterLastNonSpace(s[..|s| - 1])
    else |s|
  }

  method TrimSpaces(str: string) returns (r: string)
    ensures r == Trim(str)
  {
    r := str[FirstNonSpace(str)..];
    r := r[..AfterLastNonSpace(r)];
  }

  predicate NoOuterSpaces(s: string) {
    s != "" ==> s[0] != ' ' && s[|s| - 1] != ' '
  }

  lemma {:induction false} TrimLeftFacts(s: string)
    ensures TrimLeft(s) != "" ==> TrimLeft(s)[0] != ' '
    ensures TrimLeft(s + " ") == if TrimLeft(s) == "" then "" else TrimLeft(s) + " "
  {
    if s != "" && s[0] == ' ' {
      TrimLeftFacts(s[1..]);
      assert (s + " ")[1..] == s[1..] + " ";
    } else if s == "" {
      assert s + " " == " " && " "[1..] == "";
    }
  }

  lemma {:induction false} TrimRightFacts(s: string)
    ensures TrimRight(s) <= s
    ensures TrimRight(s) != "" ==> TrimRight(s)[|TrimRight(s)| - 1] != ' '
  {
    if s == "" || s[|s| - 1] != ' ' {
    } else {
      TrimRightFacts(s[..|s| - 1]);
    }
  }

  lemma TrimFacts(s: string)
    ensures NoOuterSpaces(Trim(s))
    ensures NoOuterSpaces(s) ==> Trim(s) == s
    ensures Trim(" " + s) == Trim(s)
    ensures Trim(s + " ") == Trim(s)
  {
    TrimLeftFacts(s);
    TrimRightFacts(TrimLeft(s));
    assert (" " + s)[1..] == s;
    var t := TrimLeft(s);
    assert (t + " ")[..|t|] == t;
  }

  // ---- Split ----

  const BAR: string := "||"

  predicate IsAt(s: string, sep: string, i: nat) {
    i + |sep| <= |s| && forall j :: 0 <= j < |sep| ==> s[i + j] == sep[j]
  }

  /** string::find from a position on: the first occurrence of the separator, or -1. */
  function Find(s: string, sep: string, from: nat): (c: int)
    ensures c == -1 || (from <= c && c + |sep| <= |s|)
    decreases |s| - from
  {
    if from + |sep| > |s| then -1
    else if IsAt(s, sep, from) then from
    else Find(s, sep, from + 1)
  }

  /** The position found is the first occurrence; none is found if and only if there is none. */
  lemma {:induction false} FindFirst(s: string, sep: string, from: nat)
    ensures var c := Find(s, sep, from);
      if c < 0 then forall i :: from <= i ==> !IsAt(s, sep, i)
      else IsAt(s, sep, c) && forall i :: from <= i < c ==> !IsAt(s, sep, i)
    decreases |s| - from
  {
    if from + |sep| <= |s| && !IsAt(s, sep, from) {
      FindFirst(s, sep, from + 1);
    }
  }

  function NonEmpty(s: string): seq<string> {
    if s == "" then [] else [s]
  }

  /** The non-empty pieces between separators, from a position on. */
  function Tokens(s: string, sep: string, from: nat): seq<string>
    requires sep != "" && from <= |s|
    decreases |s| - from
  {
    var c := Find(s, sep, from);
    if c < 0 then NonEmpty(s[from..]) else NonEmpty(s[from..c]) + Tokens(s, sep, c + |sep|)
  }

  /** find_first_not_of: how many leading characters belong to the separator. */
  function Leading(s: string, sep: string): (n: nat)
    ensures n <= |s| && (n < |s| ==> s[n] !in sep)
  {
    if s == "" || s[0] !in sep then 0 else 1 + Leading(s[1..], sep)
  }

  function SplitOf(s: string, sep: string): seq<string>
    requires sep != ""
  {
    Tokens(s, sep, Leading(s, sep))
  }

  lemma Reassociate(a: seq<string>, b: seq<string>, c: seq<string>)
    ensures a + (b + c) == (a + b) + c
  {
  }

  /** The tokens from a position on, or none when the search has ended. */
  function Remaining(s: string, sep: string, from: int): seq<string>
    requires sep != "" && from <= |s|
  {
    if from < 0 then [] else Tokens(s, sep, from)
  }

  /** The piece up to the next separator, and where the search goes on. */
  lemma TokensNext(s: string, sep: string, from: nat, ret: seq<string>, tmp: string, next: int)
    requires sep != "" && from <= |s|
    requires var c := Find(s, sep, from);
      tmp == s[from..if c < 0 then |s| else c] && next == if c < 0 then -1 else c + |sep|
    ensures ret + Tokens(s, sep, from) == (ret + NonEmpty(tmp)) + Remaining(s, sep, next)
  {
    var piece, rest := NonEmpty(tmp), Remaining(s, sep, next);
    if next < 0 {
      assert s[from..|s|] == s[from..];
      Reassociate(ret, piece, []);
      assert piece + [] == piece;
    } else {
      Reassociate(ret, piece, rest);
    }
  }

  /** One turn of the split loop: takes the piece up to the next separator, or the last one. */
  method NextToken(strIn: string, sep: string, begin: nat, ret: seq<string>) returns (now: seq<string>, next: int)
    requires sep != "" && begin <= |strIn|
    ensures next == -1 || begin < next <= |strIn|
    ensures now + Remaining(strIn, sep, next) == ret + Tokens(strIn, sep, begin)
  {
    var comma := Find(strIn, sep, begin);
    var tmp;
    if comma >= 0 {
      tmp, next := strIn[begin..comma], comma + |sep|;
    } else {
      tmp, next := strIn[begin..], -1;
    }
    TokensNext(strIn, sep, begin, ret, tmp, next);
    now := ret;
    if tmp != "" {
      now := now + [tmp];
    }
  }

  /** Both overloads of Split; the one for a character is the one for the string of that character. */
  method Split(strIn: string, sep: string) returns (ret: seq<string>)
    requires strIn != "" ==> sep != ""
    ensures ret == if strIn == "" then [] else SplitOf(strIn, sep)
  {
    ret := [];
    if strIn == "" {
      return;
    }
    var begin: int := Leading(strIn, sep);
    ghost var all := SplitOf(strIn, sep);
    if begin == |strIn| {
      begin := -1;
    }
    while begin >= 0
      invariant -1 <= begin <= |strIn| && ret + Remaining(strIn, sep, begin) == all
      decreases if begin >= 0 then |strIn| - begin + 1 else 0
    {
      ret, begin := NextToken(strIn, sep, begin, ret);
    }
  }

  // ---- buildSubscriptionData ----

  datatype Error = SplitError

  const SUB_ALL: string := "*"

  /** The non-empty trimmed tokens, in order. */
  function TagsOf(tokens: seq<string>): seq<string> {
    if tokens == [] then [] else
      var n := |tokens| - 1;
      TagsOf(tokens[..n]) + NonEmpty(Trim(tokens[n]))
  }

  /** The tag list of a subscription; an empty list subscribes to everything. */
  function TagsFor(subString: string): Result<seq<string>, Error> {
    if subString == "" || subString == SUB_ALL then Ok([])
    else if SplitOf(subString, BAR) == [] then Err(SplitError)
    else Ok(TagsOf(SplitOf(subString, BAR)))
  }

  method BuildSubscriptionData(subString: string) returns (r: Result<seq<string>, Error>)
    ensures r == TagsFor(subString)
  {
    if subString == "" || subString == SUB_ALL {
      return Ok([]);
    }
    var out := Split(subString, BAR);
    if out == [] {
      return Err(SplitError);
    }
    var tagsSet := [];
    for i := 0 to |out|
      invariant tagsSet == TagsOf(out[..i])
    {
      assert out[..i + 1][..i] == out[..i];
      var tag := out[i];
      if tag != "" {
        tag := TrimSpaces(tag);
        if tag != "" {
          tagsSet := tagsSet + [tag];
        }
      }
    }
    assert out[..|out|] == out;
    return Ok(tagsSet);
  }

  // ---- Printing and parsing ----

  /** The expression that lists the pieces. */
  function Join(pieces: seq<string>): string
    requires pieces != []
  {
    if |pieces| == 1 then pieces[0] else pieces[0] + " || " + Join(pieces[1..])
  }

  /** No two bars side by side. */
  predicate NoBar(s: string) {
    forall i :: 0 <= i < |s| - 1 ==> !(s[i] == '|' && s[i + 1] == '|')
  }

  lemma {:induction false} TagsOfAppend(a: seq<string>, b: seq<string>)
    ensures TagsOf(a + b) == TagsOf(a) + TagsOf(b)
  {
    if b == [] {
      assert a + b == a;
    } else {
      var n := |b| - 1;
      TagsOfAppend(a, b[..n]);
      assert (a + b)[..|a + b| - 1] == a + b[..n] && (a + b)[|a + b| - 1] == b[n];
      Reassociate(TagsOf(a), TagsOf(b[..n]), NonEmpty(Trim(b[n])));
    }
  }

  lemma BarAt(s: string, i: nat)
    ensures IsAt(s, BAR, i) <==> i + 2 <= |s| && s[i] == '|' && s[i + 1] == '|'
  {
    assert BAR[0] == '|' && BAR[1] == '|';
    if i + 2 <= |s| && s[i] == '|' && s[i + 1] == '|' {
      assert forall j :: 0 <= j < 2 ==> s[i + j] == BAR[j];
    }
    if IsAt(s, BAR, i) {
      assert s[i + 0] == BAR[0] && s[i + 1] == BAR[1];
    }
  }

  /** The first bar after a piece without one is the bar that follows it. */
  lemma FindPast(s: string, from: nat, p: string, rest: string)
    requires from <= |s| && s[from..] == p + " ||" + rest && NoBar(p)
    ensures Find(s, BAR, from) == from + |p| + 1
  {
    var c := from + |p| + 1;
    FindFirst(s, BAR, from);
    forall i | 0 <= i < |p| + 3 ensures s[from + i] == (p + " ||")[i] {
      assert s[from + i] == s[from..][i];
    }
    BarAt(s, c);
    forall i | from <= i < c ensures !IsAt(s, BAR, i) {
      BarAt(s, i);
      assert s[i] == (p + " ||")[i - from] && s[i + 1] == (p + " ||")[i + 1 - from];
    }
  }

  lemma OneTag(s: string)
    ensures TagsOf([s]) == NonEmpty(Trim(s))
  {
    assert [s][..0] == [];
  }

  /** The first token of a text is a piece without a bar and the space after it. */
  lemma TokensPast(s: string, from: nat, p: string, rest: string)
    requires from <= |s| && s[from..] == p + " ||" + rest && NoBar(p)
    ensures var next := from + |p| + 3;
      && next <= |s| && s[next..] == rest
      && Tokens(s, BAR, from) == [p + " "] + Tokens(s, BAR, next)
  {
    FindPast(s, from, p, rest);
    PieceSlices(s, from, p, rest);
    var c := Find(s, BAR, from);
    assert s[from..c] == p + " ";
  }

  /** Parsing a piece without a bar, and then whatever follows its bar. */
  lemma ParsePiece(s: string, from: nat, p: string, rest: string)
    requires from <= |s| && s[from..] == p + " ||" + rest && NoBar(p)
    ensures var next := from + |p| + 3;
      && next <= |s| && s[next..] == rest
      && TagsOf(Tokens(s, BAR, from)) == NonEmpty(Trim(p)) + TagsOf(Tokens(s, BAR, next))
  {
    TokensPast(s, from, p, rest);
    TrimFacts(p);
    var tokens, later := Tokens(s, BAR, from), Tokens(s, BAR, from + |p| + 3);
    TagsCons(p + " ", later);
    assert tokens == [p + " "] + later;
  }

  lemma PieceSlices(s: string, from: nat, p: string, rest: string)
    requires from <= |s| && s[from..] == p + " ||" + rest
    ensures from + |p| + 3 <= |s| && s[from..from + |p| + 1] == p + " " && s[from + |p| + 3..] == rest
  {
    var t := s[from..];
    assert t[..|p| + 1] == p + " " && t[|p| + 3..] == rest;
    assert s[from..from + |p| + 1] == t[..|p| + 1];
    assert s[from + |p| + 3..] == t[|p| + 3..];
  }

  lemma TagsCons(t: string, rest: seq<string>)
    ensures TagsOf([t] + rest) == NonEmpty(Trim(t)) + TagsOf(rest)
  {
    OneTag(t);
    TagsOfAppend([t], rest);
  }

  lemma ParseLast(s: string, from: nat, p: string)
    requires from <= |s| && s[from..] == p && NoBar(p)
    ensures TagsOf(Tokens(s, BAR, from)) == NonEmpty(Trim(p))
  {
    FindFirst(s, BAR, from);
    forall i | from <= i ensures !IsAt(s, BAR, i) {
      BarAt(s, i);
      if i + 2 <= |s| {
        assert s[i] == p[i - from] && s[i + 1] == p[i + 1 - from];
      }
    }
    OneTag(p);
  }

  /** A piece, or a piece after the space that follows a bar. */
  lemma Lead(p: string, lead: string)
    requires NoBar(p) && (lead == "" || lead == " ")
    ensures NoBar(lead + p) && Trim(lead + p) == Trim(p)
  {
    if lead == "" {
      assert lead + p == p;
    } else {
      TrimFacts(p);
    }
  }

  lemma TagsHead(pieces: seq<string>)
    requires pieces != []
    ensures TagsOf(pieces) == NonEmpty(Trim(pieces[0])) + TagsOf(pieces[1..])
  {
    TagsCons(pieces[0], pieces[1..]);
    assert [pieces[0]] + pieces[1..] == pieces;
  }

  lemma JoinStep(pieces: seq<string>, lead: string)
    requires |pieces| > 1
    ensures lead + Join(pieces) == lead + pieces[0] + " ||" + (" " + Join(pieces[1..]))
  {
    assert " || " == " ||" + " ";
    Regroup(lead, pieces[0], Join(pieces[1..]));
  }

  lemma Regroup(a: string, b: string, c: string)
    ensures a + (b + " || " + c) == a + b + " ||" + (" " + c)
  {
  }

  /** Parsing the head of a printed list. */
  lemma ParseHead(s: string, from: nat, pieces: seq<string>, lead: string) returns (next: nat)
    requires |pieces| > 1 && NoBar(pieces[0]) && (lead == "" || lead == " ")
    requires from <= |s| && s[from..] == lead + Join(pieces)
    ensures from < next <= |s| && s[next..] == " " + Join(pieces[1..])
    ensures TagsOf(Tokens(s, BAR, from)) == NonEmpty(Trim(pieces[0])) + TagsOf(Tokens(s, BAR, next))
  {
    var p := lead + pieces[0];
    Lead(pieces[0], lead);
    JoinStep(pieces, lead);
    ParsePiece(s, from, p, " " + Join(pieces[1..]));
    next := from + |p| + 3;
  }

  /** Parsing a printed list whose pieces hold no bar gives the pieces, trimmed, without the blank ones. */
  lemma {:induction false} ParsePrinted(s: string, from: nat, pieces: seq<string>, lead: string)
    requires pieces != [] && (forall i :: 0 <= i < |pieces| ==> NoBar(pieces[i])) && (lead == "" || lead == " ")
    requires from <= |s| && s[from..] == lead + Join(pieces)
    ensures TagsOf(Tokens(s, BAR, from)) == TagsOf(pieces)
    decreases |pieces|
  {
    TagsHead(pieces);
    if |pieces| == 1 {
      Lead(pieces[0], lead);
      ParseLast(s, from, lead + pieces[0]);
      assert pieces[1..] == [];
    } else {
      var next := ParseHead(s, from, pieces, lead);
      ParsePrinted(s, next, pieces[1..], " ");
    }
  }

  /** A tag as a parsed subscription has it. */
  predicate Clean(tag: string) {
    tag != "" && NoOuterSpaces(tag) && NoBar(tag)
  }

  predicate AllClean(tags: seq<string>) {
    forall i :: 0 <= i < |tags| ==> Clean(tags[i])
  }

  lemma {:induction false} TrimShrinks(s: string)
    ensures |Trim(s)| <= |s| && (NoBar(s) ==> NoBar(Trim(s)))
  {
    TrimRightFacts(TrimLeft(s));
    if s == "" || s[0] != ' ' {
    } else {
      assert NoBar(s) ==> NoBar(s[1..]);
      TrimShrinks(s[1..]);
    }
  }

  lemma CleanTag(tag: string)
    requires Clean(tag)
    ensures NonEmpty(Trim(tag)) == [tag]
  {
    TrimFacts(tag);
  }

  lemma {:induction false} TagsOfClean(tags: seq<string>)
    requires AllClean(tags)
    ensures TagsOf(tags) == tags
  {
    if tags == [] {
    } else {
      var n := |tags| - 1;
      TagsOfClean(tags[..n]);
      CleanTag(tags[n]);
      assert tags[..n] + [tags[n]] == tags;
    }
  }

  lemma {:induction false} TagsAreClean(tokens: seq<string>)
    requires forall i :: 0 <= i < |tokens| ==> NoBar(tokens[i])
    ensures AllClean(TagsOf(tokens))
  {
    if tokens == [] {
    } else {
      var n := |tokens| - 1;
      TagsAreClean(tokens[..n]);
      TrimFacts(tokens[n]);
      TrimShrinks(tokens[n]);
    }
  }

  lemma {:induction false} TokensHaveNoBar(s: string, from: nat)
    requires from <= |s|
    ensures forall i :: 0 <= i < |Tokens(s, BAR, from)| ==> NoBar(Tokens(s, BAR, from)[i])
    decreases |s| - from
  {
    FindFirst(s, BAR, from);
    var c := Find(s, BAR, from);
    var piece := if c < 0 then s[from..] else s[from..c];
    forall i | 0 <= i < |piece| - 1 ensures !(piece[i] == '|' && piece[i + 1] == '|') {
      BarAt(s, from + i);
    }
    if c >= 0 {
      TokensHaveNoBar(s, c + 2);
    }
  }

  /** Every tag of every parsed subscription is clean. */
  lemma ParsedTagsAreClean(subString: string)
    requires TagsFor(subString).Ok?
    ensures AllClean(TagsFor(subString).value)
  {
    if subString != "" && subString != SUB_ALL {
      TokensHaveNoBar(subString, Leading(subString, BAR));
      TagsAreClean(SplitOf(subString, BAR));
    }
  }

  lemma JoinStart(tags: seq<string>)
    requires tags != [] && tags[0] != ""
    ensures tags[0] <= Join(tags) && (|tags| > 1 ==> |Join(tags)| > |tags[0]| && Join(tags)[|tags[0]|] == ' ')
    ensures Join(tags) == SUB_ALL <==> tags == [SUB_ALL]
  {
    if |tags| > 1 {
      assert Join(tags) == tags[0] + (" || " + Join(tags[1..]));
      assert Join(tags)[|tags[0]|] == ' ';
    }
  }

  predicate StartsWithBar(s: string) {
    s != "" && s[0] == '|'
  }

  lemma SkipOne(s: string)
    requires StartsWithBar(s) && (|s| > 1 ==> s[1] != '|')
    ensures Leading(s, BAR) == 1
  {
    var rest := s[1..];
    if rest != "" {
      assert rest[0] == s[1];
    }
    assert Leading(rest, BAR) == 0;
  }

  lemma DropFirst(a: string, b: string, c: string)
    requires a != ""
    ensures (a + b + c)[1..] == a[1..] + b + c
  {
  }

  lemma JoinTail(tags: seq<string>)
    requires tags != [] && tags[0] != ""
    ensures Join(tags)[1..] == Join([tags[0][1..]] + tags[1..])
  {
    var first := tags[0][1..];
    var shorter := [first] + tags[1..];
    if |tags| > 1 {
      assert shorter[1..] == tags[1..];
      DropFirst(tags[0], " || ", Join(tags[1..]));
    }
  }

  lemma SecondCharacter(tags: seq<string>)
    requires tags != [] && NoBar(tags[0]) && StartsWithBar(tags[0])
    ensures StartsWithBar(Join(tags)) && (|Join(tags)| > 1 ==> Join(tags)[1] != '|')
  {
    JoinStart(tags);
    assert Join(tags)[0] == tags[0][0];
    if |tags[0]| > 1 {
      assert Join(tags)[1] == tags[0][1];
    }
  }

  /** A list that begins with a bar loses it to the leading skip. */
  lemma LeadingBarIsLost(tags: seq<string>)
    requires tags != [] && AllClean(tags) && StartsWithBar(tags[0])
    ensures TagsOf(SplitOf(Join(tags), BAR)) != tags
  {
    var s, first := Join(tags), tags[0][1..];
    SecondCharacter(tags);
    SkipOne(s);
    JoinTail(tags);
    var shorter := [first] + tags[1..];
    assert "" + Join(shorter) == Join(shorter);
    ParsePrinted(s, 1, shorter, "");
    LostTags(first, tags);
  }

  lemma LostTags(first: string, tags: seq<string>)
    requires tags != [] && AllClean(tags) && |first| < |tags[0]|
    ensures TagsOf([first] + tags[1..]) != tags
  {
    TagsCons(first, tags[1..]);
    TagsOfClean(tags[1..]);
    TrimShrinks(first);
  }

  lemma CleanListParses(tags: seq<string>)
    requires tags != [] && AllClean(tags) && !StartsWithBar(tags[0])
    ensures TagsOf(SplitOf(Join(tags), BAR)) == tags
  {
    var s := Join(tags);
    JoinStart(tags);
    assert s[0] == tags[0][0];
    assert Leading(s, BAR) == 0;
    assert s == "" + s && s[0..] == s;
    ParsePrinted(s, 0, tags, "");
    TagsOfClean(tags);
  }

  /** Parsing undoes printing, exactly: for any non-empty list, parsing its " || " expression gives the list
      back if and only if its tags are not empty, have no outer spaces and no two bars side by side, the
      first does not start with a bar, and the list is not just "*". */
  lemma ParseUndoesPrint(tags: seq<string>)
    requires tags != []
    ensures TagsFor(Join(tags)) == Ok(tags) <==> AllClean(tags) && !StartsWithBar(tags[0]) && tags != [SUB_ALL]
  {
    if !AllClean(tags) {
      if TagsFor(Join(tags)) == Ok(tags) {
        ParsedTagsAreClean(Join(tags));
        assert false;
      }
    } else {
      JoinStart(tags);
      if StartsWithBar(tags[0]) {
        LeadingBarIsLost(tags);
      } else {
        CleanListParses(tags);
      }
    }
  }

  // ---- Expressions that subscribe to everything ----

  predicate AllSpaces(s: string) {
    forall i :: 0 <= i < |s| ==> s[i] == ' '
  }

  lemma {:induction false} TrimLeftBlank(s: string)
    ensures TrimLeft(s) == "" <==> AllSpaces(s)
  {
    if s == "" || s[0] != ' ' {
    } else {
      TrimLeftBlank(s[1..]);
      assert AllSpaces(s[1..]) ==> forall i :: 0 < i < |s| ==> s[1..][i - 1] == s[i];
    }
  }

  lemma {:induction false} TrimRightBlank(s: string)
    ensures TrimRight(s) == "" <==> AllSpaces(s)
  {
    if s == "" || s[|s| - 1] != ' ' {
    } else {
      TrimRightBlank(s[..|s| - 1]);
      assert AllSpaces(s[..|s| - 1]) ==> forall i :: 0 <= i < |s| - 1 ==> s[..|s| - 1][i] == s[i];
    }
  }

  lemma TrimBlank(s: string)
    ensures Trim(s) == "" <==> AllSpaces(s)
  {
    TrimLeftBlank(s);
    TrimLeftFacts(s);
    TrimRightBlank(TrimLeft(s));
  }

  predicate AllBlank(tokens: seq<string>) {
    forall i :: 0 <= i < |tokens| ==> AllSpaces(tokens[i])
  }

  lemma {:induction false} NoTagsIff(tokens: seq<string>)
    ensures TagsOf(tokens) == [] <==> AllBlank(tokens)
  {
    if tokens == [] {
    } else {
      var n := |tokens| - 1;
      NoTagsIff(tokens[..n]);
      TrimBlank(tokens[n]);
      assert AllBlank(tokens) <==> AllBlank(tokens[..n]) && AllSpaces(tokens[n]) by {
        assert forall i :: 0 <= i < n ==> tokens[..n][i] == tokens[i];
      }
    }
  }

  /** The expression without its leading bars. */
  function AfterBars(s: string): string {
    if s != "" && s[0] == '|' then AfterBars(s[1..]) else s
  }

  /** Nothing but spaces and double bars. */
  predicate SpacesAndBars(s: string) {
    || s == ""
    || (s[0] == ' ' && SpacesAndBars(s[1..]))
    || (|s| >= 2 && s[0] == s[1] == '|' && SpacesAndBars(s[2..]))
  }

  lemma {:induction false} AfterBarsIs(s: string)
    ensures AfterBars(s) == s[Leading(s, BAR)..]
  {
    if s == "" || s[0] != '|' {
    } else {
      assert BAR[0] == '|';
      AfterBarsIs(s[1..]);
      assert s[1..][Leading(s[1..], BAR)..] == s[1 + Leading(s[1..], BAR)..];
    }
  }

  lemma AllSpacesNext(s: string, from: nat, end: nat)
    requires from < end <= |s|
    ensures AllSpaces(s[from..end]) <==> s[from] == ' ' && AllSpaces(s[from + 1..end])
  {
    assert s[from..end] == [s[from]] + s[from + 1..end];
  }

  /** Up to the end, or up to the first double bar, only spaces will do. */
  lemma {:induction false} BlankUpTo(s: string, from: nat, c: int)
    requires from <= |s| && c == Find(s, BAR, from)
    ensures SpacesAndBars(s[from..]) <==>
      if c < 0 then AllSpaces(s[from..]) else AllSpaces(s[from..c]) && SpacesAndBars(s[c + 2..])
    decreases |s| - from
  {
    BarAt(s, from);
    if from == |s| {
    } else if c == from {
      assert s[from..][2..] == s[c + 2..] && s[from..c] == "";
    } else {
      BlankUpTo(s, from + 1, c);
      AllSpacesNext(s, from, if c < 0 then |s| else c);
      assert s[from..|s|] == s[from..] && s[from + 1..|s|] == s[from + 1..];
      assert s[from..][1..] == s[from + 1..];
    }
  }

  lemma BlankOne(piece: string)
    ensures AllBlank(NonEmpty(piece)) <==> AllSpaces(piece)
  {
    assert piece != "" ==> NonEmpty(piece)[0] == piece;
  }

  lemma BlankConcat(piece: string, rest: seq<string>)
    ensures AllBlank(NonEmpty(piece) + rest) <==> AllSpaces(piece) && AllBlank(rest)
  {
    var all, n := NonEmpty(piece) + rest, |NonEmpty(piece)|;
    assert forall i :: 0 <= i < |rest| ==> all[n + i] == rest[i];
    assert piece != "" ==> all[0] == piece;
  }

  lemma {:induction false} BlankTokens(s: string, from: nat)
    requires from <= |s|
    ensures AllBlank(Tokens(s, BAR, from)) <==> SpacesAndBars(s[from..])
    decreases |s| - from
  {
    var c := Find(s, BAR, from);
    BlankUpTo(s, from, c);
    if c < 0 {
      BlankOne(s[from..]);
    } else {
      BlankTokens(s, c + 2);
      BlankConcat(s[from..c], Tokens(s, BAR, c + 2));
    }
  }

  /** There is a piece if and only if something is left after the leading bars. */
  lemma SomePiece(s: string)
    ensures SplitOf(s, BAR) != [] <==> AfterBars(s) != ""
  {
    var n := Leading(s, BAR);
    AfterBarsIs(s);
    assert BAR[0] == '|';
    if n < |s| {
      BarAt(s, n);
      var c := Find(s, BAR, n);
      FindFirst(s, BAR, n);
      assert c < 0 || s[n..c] != "";
    }
  }

  /** Exactly the expressions that are refused: those of bars only. */
  lemma RefusedExactly(subString: string)
    ensures TagsFor(subString) == Err(SplitError) <==>
      subString != "" && forall i :: 0 <= i < |subString| ==> subString[i] == '|'
  {
    SomePiece(subString);
    AllBars(subString);
    if subString == SUB_ALL {
      assert subString[0] == '*';
    }
  }

  lemma {:induction false} AllBars(s: string)
    ensures AfterBars(s) == "" <==> forall i :: 0 <= i < |s| ==> s[i] == '|'
  {
    if s == "" {
    } else {
      AllBars(s[1..]);
      if s[0] == '|' && AfterBars(s[1..]) == "" {
        forall i | 0 <= i < |s| ensures s[i] == '|' {
          assert i > 0 ==> s[1..][i - 1] == s[i];
        }
      }
    }
  }

  /** Exactly the expressions that subscribe to everything: the empty one, "*", and those that after any leading
      bars have something, but nothing except spaces and double bars. */
  lemma EverythingExactly(subString: string)
    ensures TagsFor(subString) == Ok([]) <==>
      || subString == "" || subString == "*"
      || (AfterBars(subString) != "" && SpacesAndBars(AfterBars(subString)))
  {
    NoTagsIff(SplitOf(subString, BAR));
    BlankTokens(subString, Leading(subString, BAR));
    AfterBarsIs(subString);
    SomePiece(subString);
  }
}
