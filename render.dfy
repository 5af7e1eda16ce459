/** The renderer: one markdown image link per sponsorship, joined into one text. */
module Render {
  import opened Common
  import opened Sponsorships

  /** Rewrites an avatar URL so that its size parameter is 32; None when the URL
      does not parse. The URL library itself is not part of this model. */
  type AvatarRewrite = string -> Option<string>

  /** The name shown for a sponsor: `name`, or `login` when the name is absent. */
  function DisplayName(e: SponsorEntity): (r: string)
    ensures e.name.Some? ==> r == e.name.value
    ensures e.name.None? ==> r == e.login
  {
    e.name.GetOr(e.login)
  }

  /** The markdown line for a sponsor whose rewritten avatar URL is `avatar`. */
  function Line(e: SponsorEntity, avatar: string): string {
    "[![" + DisplayName(e) + "](" + avatar + " \"" + DisplayName(e) + "\")](https://github.com/" + e.login + ")"
  }

  /** One sponsorship's line, or the error for an avatar URL that does not parse. */
  function FormatItem(s: Sponsorship, rewriteAvatar: AvatarRewrite): Result<string, Error> {
    match rewriteAvatar(s.sponsorEntity.avatarUrl)
    case None => Failure(InvalidAvatarUrl(s.sponsorEntity.avatarUrl))
    case Some(avatar) => Success(Line(s.sponsorEntity, avatar))
  }

  /** Every avatar URL of `list` parses. */
  predicate AvatarsParse(list: seq<Sponsorship>, rewriteAvatar: AvatarRewrite) {
    forall i :: 0 <= i < |list| ==> rewriteAvatar(list[i].sponsorEntity.avatarUrl).Some?
  }

  /** The lines of `list` in order; the first item whose URL does not parse stops the mapping. */
  function FormatItems(list: seq<Sponsorship>, rewriteAvatar: AvatarRewrite): (r: Result<seq<string>, Error>)
    ensures r.Success? <==> AvatarsParse(list, rewriteAvatar)
    ensures r.Success? ==> |r.value| == |list|
    ensures r.Success? ==> forall i :: 0 <= i < |list| ==> Success(r.value[i]) == FormatItem(list[i], rewriteAvatar)
  {
    if list == [] then Success([])
    else match FormatItem(list[0], rewriteAvatar)
      case Failure(e) => Failure(e)
      case Success(line) =>
        match FormatItems(list[1..], rewriteAvatar)
        case Failure(e) => Failure(e)
        case Success(rest) => Success([line] + rest)
  }

  /** The lines with one newline between each two of them. */
  function JoinLines(lines: seq<string>): string {
    if |lines| == 0 then ""
    else if |lines| == 1 then lines[0]
    else lines[0] + "\n" + JoinLines(lines[1..])
  }

  /** The rendered list; an empty list renders as the empty text. */
  function FormatList(list: seq<Sponsorship>, rewriteAvatar: AvatarRewrite): (r: Result<string, Error>)
    ensures list == [] ==> r == Success("")
    ensures r.Success? <==> AvatarsParse(list, rewriteAvatar)
  {
    if |list| > 0 then
      match FormatItems(list, rewriteAvatar)
      case Failure(e) => Failure(e)
      case Success(lines) => Success(JoinLines(lines))
    else Success("")
  }

  /** A text cut at every newline; the reading of a rendered text as its lines. */
  function SplitLines(s: string): (r: seq<string>)
    ensures |r| >= 1
  {
    if s == [] then [""]
    else
      var rest := SplitLines(s[1..]);
      if s[0] == '\n' then [""] + rest else [[s[0]] + rest[0]] + rest[1..]
  }

  /** A failing render reports the first avatar URL, in list order, that does not parse. */
  lemma {:induction false} FirstInvalidAvatarReported(list: seq<Sponsorship>, rewriteAvatar: AvatarRewrite)
    requires FormatItems(list, rewriteAvatar).Failure?
    ensures exists k :: (0 <= k < |list|
                         && rewriteAvatar(list[k].sponsorEntity.avatarUrl).None?
                         && AvatarsParse(list[..k], rewriteAvatar)
                         && FormatItems(list, rewriteAvatar).error == InvalidAvatarUrl(list[k].sponsorEntity.avatarUrl))
  {
    if rewriteAvatar(list[0].sponsorEntity.avatarUrl).None? {
      assert AvatarsParse(list[..0], rewriteAvatar);
    } else {
      FirstInvalidAvatarReported(list[1..], rewriteAvatar);
      var k :| 0 <= k < |list[1..]|
        && rewriteAvatar(list[1..][k].sponsorEntity.avatarUrl).None?
        && AvatarsParse(list[1..][..k], rewriteAvatar)
        && FormatItems(list[1..], rewriteAvatar).error == InvalidAvatarUrl(list[1..][k].sponsorEntity.avatarUrl);
      assert list[..k + 1] == [list[0]] + list[1..][..k];
      assert AvatarsParse(list[..k + 1], rewriteAvatar);
    }
  }

  /** A line links to the sponsor's profile and shows its display name. */
  lemma LineLinksToProfile(e: SponsorEntity, avatar: string)
    ensures var line := Line(e, avatar);
      var head := "[![" + DisplayName(e) + "](";
      var tail := "](https://github.com/" + e.login + ")";
      |line| >= |head| + |tail| && line[..|head|] == head && line[|line| - |tail|..] == tail
  {
    var head := "[![" + DisplayName(e) + "](";
    var middle := avatar + " \"" + DisplayName(e) + "\")";
    var tail := "](https://github.com/" + e.login + ")";
    assert Line(e, avatar) == head + middle + tail;
  }

  /** A line holds no newline when the name, login and avatar URL hold none. */
  lemma LineIsSingle(e: SponsorEntity, avatar: string)
    requires '\n' !in DisplayName(e) && '\n' !in e.login && '\n' !in avatar
    ensures '\n' !in Line(e, avatar)
  {
  }

  lemma {:induction false} SplitSingle(a: string)
    requires '\n' !in a
    ensures SplitLines(a) == [a]
  {
    if a != [] {
      SplitSingle(a[1..]);
      assert [a[0]] + a[1..] == a;
    }
  }

  lemma {:induction false} SplitFirstLine(a: string, b: string)
    requires '\n' !in a
    ensures SplitLines(a + "\n" + b) == [a] + SplitLines(b)
  {
    if a == [] {
      assert (a + "\n" + b)[1..] == b;
    } else {
      assert (a + "\n" + b)[1..] == a[1..] + "\n" + b;
      SplitFirstLine(a[1..], b);
      assert [a[0]] + a[1..] == a;
    }
  }

  /** Cutting the joined text at its newlines gives the lines back, when no line
      holds a newline itself. */
  lemma {:induction false} SplitJoin(lines: seq<string>)
    requires |lines| >= 1
    requires forall i :: 0 <= i < |lines| ==> '\n' !in lines[i]
    ensures SplitLines(JoinLines(lines)) == lines
  {
    if |lines| == 1 {
      SplitSingle(lines[0]);
    } else {
      SplitJoin(lines[1..]);
      SplitFirstLine(lines[0], JoinLines(lines[1..]));
      assert [lines[0]] + lines[1..] == lines;
    }
  }

  /** No sponsor's display name, login or rewritten avatar URL holds a newline. */
  predicate SingleLineFields(list: seq<Sponsorship>, rewriteAvatar: AvatarRewrite) {
    forall i :: 0 <= i < |list| ==>
      var e := list[i].sponsorEntity;
      '\n' !in DisplayName(e) && '\n' !in e.login
      && (rewriteAvatar(e.avatarUrl).Some? ==> '\n' !in rewriteAvatar(e.avatarUrl).value)
  }

  /** A rendered list of N sponsorships reads back as exactly N lines, the i-th
      being the i-th sponsorship's line, and the text does not end in a newline. */
  lemma RenderedLines(list: seq<Sponsorship>, rewriteAvatar: AvatarRewrite)
    requires |list| > 0 && AvatarsParse(list, rewriteAvatar) && SingleLineFields(list, rewriteAvatar)
    ensures FormatList(list, rewriteAvatar).Success?
    ensures var lines := SplitLines(FormatList(list, rewriteAvatar).value);
      |lines| == |list|
      && forall i :: 0 <= i < |list| ==>
        lines[i] == Line(list[i].sponsorEntity, rewriteAvatar(list[i].sponsorEntity.avatarUrl).value)
    ensures var text := FormatList(list, rewriteAvatar).value; text != [] && text[|text| - 1] == ')'
  {
    var lines := FormatItems(list, rewriteAvatar).value;
    forall i | 0 <= i < |lines|
      ensures '\n' !in lines[i]
      ensures lines[i] == Line(list[i].sponsorEntity, rewriteAvatar(list[i].sponsorEntity.avatarUrl).value)
    {
      var e := list[i].sponsorEntity;
      LineIsSingle(e, rewriteAvatar(e.avatarUrl).value);
    }
    SplitJoin(lines);
    LastLineEndsLink(lines, list, rewriteAvatar);
  }

  lemma {:induction false} LastLineEndsLink(lines: seq<string>, list: seq<Sponsorship>, rewriteAvatar: AvatarRewrite)
    requires |lines| == |list| >= 1 && AvatarsParse(list, rewriteAvatar)
    requires forall i :: 0 <= i < |lines| ==>
      lines[i] == Line(list[i].sponsorEntity, rewriteAvatar(list[i].sponsorEntity.avatarUrl).value)
    ensures var text := JoinLines(lines); text != [] && text[|text| - 1] == ')'
  {
    if |lines| == 1 {
      var e := list[0].sponsorEntity;
      LineLinksToProfile(e, rewriteAvatar(e.avatarUrl).value);
    } else {
      LastLineEndsLink(lines[1..], list[1..], rewriteAvatar);
    }
  }
}
