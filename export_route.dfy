/** The export endpoint `POST /api/notion`: it turns the note content into a Notion
    create-page request (a title and one paragraph block per line) and reports
    success or a fixed failure message. The Notion client call is an oracle. */
module ExportRoute {
  import opened Wrappers

  /** How many leading characters of the content the page title keeps. */
  const TitleLength: nat := 50
  const Ellipsis: string := "..."
  const FailureMessage: string := "Failed to post to Notion"

  /** The parsed JSON body. The route destructures `databaseId`, `content` and
      `apiKey`; a `title` sent by the client is carried here only so that its
      irrelevance can be stated. A missing field is `None`. */
  datatype ExportBody = ExportBody(
    databaseId: Option<string>,
    content: Option<string>,
    apiKey: Option<string>,
    title: Option<string>)

  /** A `paragraph` block holding a single text run. */
  datatype Paragraph = Paragraph(text: string)

  /** The argument of `notion.pages.create`, with the client's `auth` folded in. */
  datatype PageRequest = PageRequest(
    auth: Option<string>,
    parent: Option<string>,
    title: string,
    children: seq<Paragraph>)

  /** What `notion.pages.create` does: resolve with the created page (opaque here)
      or throw. */
  datatype CreateOutcome = Created(page: string) | Thrown(reason: string)

  /** The JSON reply: `{success: true, data}` with status 200, or
      `{success: false, error}` with status 500. */
  datatype Reply = Reply(status: nat, success: bool, data: Option<string>, error: Option<string>)

  function Min(a: nat, b: nat): nat { if a <= b then a else b }

  /** Number of `'\n'` characters in `s`. */
  function CountNewlines(s: string): nat {
    if s == [] then 0 else (if s[0] == '\n' then 1 else 0) + CountNewlines(s[1..])
  }

  /** `s.split('\n')`: the maximal newline-free pieces of `s`, in order, keeping
      empty pieces (so `""` gives `[""]` and `"a\n"` gives `["a", ""]`). */
  function SplitLines(s: string): (lines: seq<string>)
    ensures |lines| >= 1
    ensures forall i :: 0 <= i < |lines| ==> '\n' !in lines[i]
    decreases |s|
  {
    if s == [] then [""]
    else if s[0] == '\n' then [""] + SplitLines(s[1..])
    else
      var rest := SplitLines(s[1..]);
      [[s[0]] + rest[0]] + rest[1..]
  }

  /** `lines.join('\n')`. */
  function JoinLines(lines: seq<string>): string {
    if |lines| == 0 then ""
    else if |lines| == 1 then lines[0]
    else lines[0] + "\n" + JoinLines(lines[1..])
  }

  /** Splitting produces one line more than there are newlines. */
  lemma {:induction false} SplitLinesCount(s: string)
    ensures |SplitLines(s)| == CountNewlines(s) + 1
    decreases |s|
  {
    if s != [] {
      SplitLinesCount(s[1..]);
    }
  }

  /** Joining the split lines with `'\n'` gives back the content exactly. */
  lemma {:induction false} JoinSplitLines(s: string)
    ensures JoinLines(SplitLines(s)) == s
    decreases |s|
  {
    if s != [] {
      var rest := SplitLines(s[1..]);
      JoinSplitLines(s[1..]);
      if s[0] == '\n' {
        assert SplitLines(s)[1..] == rest;
        assert s == "\n" + s[1..];
      } else {
        var lines := SplitLines(s);
        assert lines[0] == [s[0]] + rest[0];
        assert lines[1..] == rest[1..];
        if |rest| == 1 {
          assert s == [s[0]] + rest[0];
        } else {
          assert JoinLines(rest) == rest[0] + "\n" + JoinLines(rest[1..]);
          assert s == [s[0]] + s[1..];
        }
      }
    }
  }

  /** Splitting is also a left inverse: newline-free lines joined and split again
      are the same lines, so no information is lost in either direction. */
  lemma {:induction false} SplitJoinLines(lines: seq<string>)
    requires |lines| >= 1
    requires forall i :: 0 <= i < |lines| ==> '\n' !in lines[i]
    ensures SplitLines(JoinLines(lines)) == lines
    decreases |lines|, |lines[0]|
  {
    var head := lines[0];
    if |lines| == 1 {
      SplitSingle(head);
    } else if head == [] {
      var tail := lines[1..];
      SplitJoinLines(tail);
      assert JoinLines(lines) == "\n" + JoinLines(tail);
      assert ("\n" + JoinLines(tail))[1..] == JoinLines(tail);
    } else {
      var shorter := [head[1..]] + lines[1..];
      assert '\n' !in head[1..] by {
        forall k | 0 <= k < |head[1..]| ensures head[1..][k] != '\n' {
          assert head[1..][k] == head[k + 1];
        }
      }
      SplitJoinLines(shorter);
      assert shorter[1..] == lines[1..];
      assert JoinLines(lines) == [head[0]] + JoinLines(shorter);
      assert ([head[0]] + JoinLines(shorter))[1..] == JoinLines(shorter);
      assert [head[0]] + head[1..] == head;
    }
  }

  lemma {:induction false} SplitSingle(line: string)
    requires '\n' !in line
    ensures SplitLines(line) == [line]
    decreases |line|
  {
    if line != [] {
      assert '\n' !in line[1..] by {
        forall k | 0 <= k < |line[1..]| ensures line[1..][k] != '\n' {
          assert line[1..][k] == line[k + 1];
        }
      }
      SplitSingle(line[1..]);
      assert [line[0]] + line[1..] == line;
    }
  }

  /** `content.slice(0, 50) + '...'`. */
  function PageTitle(content: string): (title: string)
    ensures |title| == Min(|content|, TitleLength) + |Ellipsis| && |title| <= 53
    ensures title[..|title| - 3] <= content && title[|title| - 3..] == Ellipsis
    ensures |content| <= TitleLength ==> title == content + Ellipsis
  {
    content[..Min(|content|, TitleLength)] + Ellipsis
  }

  /** `content.split('\n').map(line => paragraph(line))`. */
  function Paragraphs(content: string): (blocks: seq<Paragraph>)
    ensures |blocks| == |SplitLines(content)|
    ensures forall i :: 0 <= i < |blocks| ==> blocks[i].text == SplitLines(content)[i]
  {
    var lines := SplitLines(content);
    seq(|lines|, i requires 0 <= i < |lines| => Paragraph(lines[i]))
  }

  function Texts(blocks: seq<Paragraph>): seq<string> {
    seq(|blocks|, i requires 0 <= i < |blocks| => blocks[i].text)
  }

  /** The paragraphs are one per line, blank lines included, and reading their
      texts back joined by `'\n'` reproduces the content. */
  lemma ParagraphsRoundTrip(content: string)
    ensures |Paragraphs(content)| == CountNewlines(content) + 1
    ensures JoinLines(Texts(Paragraphs(content))) == content
  {
    SplitLinesCount(content);
    assert Texts(Paragraphs(content)) == SplitLines(content);
    JoinSplitLines(content);
  }

  /** The arguments of `pages.create`. Evaluating `content.slice` on a missing
      `content` throws, so there is no request then. */
  function BuildPage(body: ExportBody): (request: Option<PageRequest>)
    ensures request.Some? <==> body.content.Some?
    ensures request.Some? ==>
      && request.value.parent == body.databaseId
      && request.value.auth == body.apiKey
      && request.value.title == PageTitle(body.content.value)
      && request.value.children == Paragraphs(body.content.value)
  {
    match body.content
    case None => None
    case Some(content) =>
      Some(PageRequest(body.apiKey, body.databaseId, PageTitle(content), Paragraphs(content)))
  }

  /** The whole handler. `body` is `None` when the request is not valid JSON;
      `create` is Notion's `pages.create`. */
  function HandlePost(body: Option<ExportBody>, create: PageRequest -> CreateOutcome): (reply: Reply)
    ensures reply.status == 200 || reply.status == 500
    ensures reply.status == 200 <==> reply.success
    ensures reply.status == 500 ==> reply.error == Some(FailureMessage) && reply.data == None
    ensures reply.status == 200 <==>
      body.Some? && body.value.content.Some? && create(BuildPage(body.value).value).Created?
    ensures reply.status == 200 ==>
      reply.error == None && reply.data == Some(create(BuildPage(body.value).value).page)
  {
    var failure := Reply(500, false, None, Some(FailureMessage));
    if body.None? then failure
    else
      match BuildPage(body.value)
      case None => failure
      case Some(request) =>
        match create(request)
        case Created(page) => Reply(200, true, Some(page), None)
        case Thrown(_) => failure
  }

  /** A `title` field in the request body has no effect on anything the route does. */
  lemma TitleIgnored(body: ExportBody, title: Option<string>, create: PageRequest -> CreateOutcome)
    ensures BuildPage(body.(title := title)) == BuildPage(body)
    ensures HandlePost(Some(body.(title := title)), create) == HandlePost(Some(body), create)
  {
  }
}
