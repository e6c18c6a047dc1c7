/** usecase/gemini_usecase.go: the prompts sent to the text-generation
    service and the order of the calls around them. The service itself is a
    parameter `generate`, a function from prompt to reply or error; each
    operation also returns the prompt it sent, or None when it never called
    the service. */
module GeminiUsecase {
  import opened Wrappers
  import opened Relational
  import opened Sql
  import opened Schema
  import opened Model
  import opened GoStrings
  import opened PostTable
  import opened GeminiDao

  const BioTemplate: string := "以下のツイート内容をもとに、Twitterの自己紹介文を日本語で150字以内で生成してください。'#'はつけないでください。"
  const NameTemplate: string := "以下のツイート内容をもとに、Twitterの名前を日本語で15字以内で1つだけ生成してください。"
  const HistoryHeader: string := "\nツイート内容:\n"
  const ContinuationTemplate: string := "以下のツイート内容を基に、Twitterの新しいツイートを合計200字以内で生成してください。'#'はつけないでください。"
  const PastHistoryHeader: string := "\n過去のツイート内容:\n"
  const ToneLine: string := "過去のツイートがタメ口中心ならタメ口中心、敬語中心なら敬語中心にしてください。"
  const InstructionLabel: string := " 追加の指示: "
  const DraftRequest: string := " 現在のツイートの続きを生成してください:"
  const DraftLabel: string := "\n現在のツイート: "
  const BadPostTemplate: string := "次の投稿が良識に反している場合は 'YES' を、そうでない場合は 'NO' を返してください:\n\n投稿内容: "
  const RecommendHead: string := "ユーザー情報をもとに、フォローすべきおすすめのユーザーを推薦してください。\n"
  const UserInfoHeader: string := "ユーザー情報:\n"
  const RecommendTail: string := "必ず上記IDのいずれかから選択するようにしてください。\n"
  const NullBio: string := "N/A"

  /** The contexts the use case wraps a failure in. */
  const HistoryContext: string := "過去ツイートの取得失敗"
  const ContentContext: string := "投稿内容の取得失敗"
  const UnfollowedContext: string := "未フォローのユーザー取得失敗"
  const RecommendContext: string := "Geminiによる推薦生成失敗"

  /** The optional instruction section: present only for a non-empty
      instruction. */
  function InstructionPart(instruction: string): (s: string)
    ensures instruction == "" <==> s == ""
    ensures instruction != "" ==> IsPrefix(InstructionLabel, s) && s[|InstructionLabel|..] == instruction
  {
    if instruction != "" then InstructionLabel + instruction else ""
  }

  /** The prompt of GenerateBio and GenerateName: a template, the history
      header, the posts joined by newlines in fetch order, then the optional
      instruction. */
  function HistoryPrompt(template: string, tweets: seq<string>, instruction: string): (p: string)
    ensures IsPrefix(template + HistoryHeader, p)
    ensures instruction != "" ==> IsSuffix(InstructionLabel + instruction, p)
  {
    template + HistoryHeader + Join(tweets, "\n") + InstructionPart(instruction)
  }

  function BioPrompt(tweets: seq<string>, instruction: string): (p: string)
    ensures IsPrefix(BioTemplate + HistoryHeader, p)
  {
    HistoryPrompt(BioTemplate, tweets, instruction)
  }

  function NamePrompt(tweets: seq<string>, instruction: string): (p: string)
    ensures IsPrefix(NameTemplate + HistoryHeader, p)
  {
    HistoryPrompt(NameTemplate, tweets, instruction)
  }

  /** Without an instruction, the part of the prompt after the header splits
      at its newlines back into the posts, when no post has a newline. */
  lemma {:induction false} HistoryRecoverable(template: string, tweets: seq<string>)
    requires |tweets| >= 1
    requires forall i :: 0 <= i < |tweets| ==> '\n' !in tweets[i]
    ensures Split(HistoryPrompt(template, tweets, "")[|template + HistoryHeader|..], '\n') == tweets
  {
    var head := template + HistoryHeader;
    assert HistoryPrompt(template, tweets, "") == head + Join(tweets, "\n");
    assert (head + Join(tweets, "\n"))[|head|..] == Join(tweets, "\n");
    SplitJoin(tweets);
  }

  /** An instruction only appends its section: the rest of the prompt is the
      one sent without it. */
  lemma InstructionOnlyAppends(template: string, tweets: seq<string>, instruction: string)
    requires instruction != ""
    ensures HistoryPrompt(template, tweets, instruction) == HistoryPrompt(template, tweets, "") + InstructionLabel + instruction
  {
  }

  /** The draft section of GenerateTweetContinuation: present only for a
      non-empty draft. */
  function DraftPart(tempText: string): (s: string)
    ensures tempText == "" <==> s == ""
    ensures tempText != "" ==> IsPrefix(DraftRequest, s) && IsSuffix(DraftLabel + tempText, s)
  {
    if tempText != "" then
      AppendEnds(DraftRequest, DraftLabel + tempText);
      DraftRequest + (DraftLabel + tempText)
    else ""
  }

  /** The fixed part of the continuation prompt: template, history and the
      politeness line. */
  function ContinuationHead(tweets: seq<string>): string
  {
    ContinuationTemplate + PastHistoryHeader + Join(tweets, "\n") + ToneLine
  }

  /** The prompt of GenerateTweetContinuation: the fixed part, the optional
      instruction, then the optional draft. */
  function ContinuationPrompt(tweets: seq<string>, instruction: string, tempText: string): (p: string)
    ensures IsPrefix(ContinuationHead(tweets), p)
    ensures tempText != "" ==> IsSuffix(DraftLabel + tempText, p)
    ensures tempText == "" ==> IsSuffix(InstructionPart(instruction), p)
  {
    var head := ContinuationHead(tweets);
    var sections := InstructionPart(instruction) + DraftPart(tempText);
    AppendEnds(head, sections);
    if tempText != "" then
      SuffixOfSuffix(DraftLabel + tempText, DraftPart(tempText), InstructionPart(instruction));
      SuffixOfSuffix(DraftLabel + tempText, sections, head);
      head + sections
    else
      head + sections
  }

  lemma Regroup(h: string, i: string, d: string)
    ensures h + (i + d) == (h + (i + "")) + d
    ensures h + (i + "") == (h + ("" + "")) + i
  {
  }

  /** The draft section always comes after the instruction section, and
      neither section changes what precedes it. */
  lemma ContinuationSectionOrder(tweets: seq<string>, instruction: string, tempText: string)
    ensures ContinuationPrompt(tweets, instruction, tempText) == ContinuationPrompt(tweets, instruction, "") + DraftPart(tempText)
    ensures ContinuationPrompt(tweets, instruction, "") == ContinuationPrompt(tweets, "", "") + InstructionPart(instruction)
  {
    Regroup(ContinuationHead(tweets), InstructionPart(instruction), DraftPart(tempText));
  }

  /** The prompt of CheckIfPostIsBad: the YES/NO question, then the post;
      the post is what follows the question. */
  function BadPostPrompt(content: string): (p: string)
    ensures IsPrefix(BadPostTemplate, p) && p[|BadPostTemplate|..] == content
  {
    BadPostTemplate + content
  }

  /** nullableToString: the bio itself, or "N/A" for NULL. */
  function NullableToString(bio: Option<string>): (s: string)
    ensures bio.Some? ==> s == bio.value
    ensures bio.None? ==> s == NullBio
  {
    if bio.Some? then bio.value else NullBio
  }

  /** A NULL bio and the bio "N/A" read the same in the prompt. */
  lemma NullBioLooksLikeNA()
    ensures NullableToString(None) == NullableToString(Some(NullBio))
  {
  }

  /** One candidate's line of the recommendation prompt, without its
      newline. */
  function UserLineText(u: UserCard): string
  {
    "- ID: " + u.userId + ", 名前: " + u.name + ", 自己紹介: " + NullableToString(u.bio)
  }

  function UserLine(u: UserCard): string
  {
    UserLineText(u) + "\n"
  }

  /** The candidate list: one line per candidate, in order. */
  function UserLines(users: seq<UserCard>): string
  {
    if users == [] then "" else UserLine(users[0]) + UserLines(users[1..])
  }

  lemma {:induction false} UserLinesAppend(users: seq<UserCard>, u: UserCard)
    ensures UserLines(users + [u]) == UserLines(users) + UserLine(u)
  {
    if users == [] {
      assert [] + [u] == [u];
      assert [u][1..] == [];
    } else {
      assert (users + [u])[0] == users[0];
      assert (users + [u])[1..] == users[1..] + [u];
      UserLinesAppend(users[1..], u);
    }
  }

  /** The fields of a candidate hold no newline. */
  predicate SingleLineCard(u: UserCard)
  {
    '\n' !in u.userId && '\n' !in u.name && (u.bio.Some? ==> '\n' !in u.bio.value)
  }

  lemma SingleLineText(u: UserCard)
    requires SingleLineCard(u)
    ensures '\n' !in UserLineText(u)
  {
    assert '\n' !in "- ID: " && '\n' !in ", 名前: " && '\n' !in ", 自己紹介: " && '\n' !in NullBio;
  }

  /** The candidate list splits at its newlines into one line per
      candidate, in order, followed by the empty rest after the last
      newline. */
  lemma {:induction false} UserLinesSplit(users: seq<UserCard>)
    requires forall i :: 0 <= i < |users| ==> SingleLineCard(users[i])
    ensures Split(UserLines(users), '\n') == Map(users, UserLineText) + [""]
  {
    if users == [] {
      assert Map(users, UserLineText) == [];
    } else {
      var line, rest := UserLineText(users[0]), users[1..];
      SingleLineText(users[0]);
      UserLinesSplit(rest);
      SplitNoSep(line, '\n', UserLines(rest));
      assert UserLines(users) == line + ['\n'] + UserLines(rest);
      var lines, restLines := Map(users, UserLineText), Map(rest, UserLineText);
      assert lines == [line] + restLines by {
        assert forall i :: 1 <= i < |lines| ==> lines[i] == restLines[i - 1];
      }
    }
  }

  /** The loop of RecommendUsers that appends one line per candidate. */
  method UserInfo(users: seq<UserCard>) returns (info: string)
    ensures info == UserLines(users)
  {
    info := "";
    for i := 0 to |users|
      invariant info == UserLines(users[..i])
    {
      UserLinesAppend(users[..i], users[i]);
      assert users[..i + 1] == users[..i] + [users[i]];
      info := info + UserLine(users[i]);
    }
    assert users[..|users|] == users;
  }

  /** The optional instruction line of RecommendUsers. */
  function RecommendInstruction(instruction: string): (s: string)
    ensures instruction == "" <==> s == ""
    ensures instruction != "" ==> s == InstructionPart(instruction) + "\n"
  {
    if instruction != "" then InstructionLabel + instruction + "\n" else ""
  }

  /** The prompt of RecommendUsers: the request, the candidate list, the
      optional instruction, and always the closing line that asks for one of
      the listed ids. */
  function RecommendPrompt(users: seq<UserCard>, instruction: string): (p: string)
    ensures IsPrefix(RecommendHead + UserInfoHeader + UserLines(users), p)
    ensures IsSuffix(RecommendTail, p)
  {
    RecommendHead + UserInfoHeader + UserLines(users) + RecommendInstruction(instruction) + RecommendTail
  }

  /** After the candidate list comes exactly the optional instruction line and
      then the closing line: a non-empty instruction is in the prompt, right
      after the candidates, and an empty one adds nothing. */
  lemma RecommendInstructionPlaced(users: seq<UserCard>, instruction: string)
    ensures var k := |RecommendHead + UserInfoHeader + UserLines(users)|;
            RecommendPrompt(users, instruction)[k..] == RecommendInstruction(instruction) + RecommendTail
    ensures var k := |RecommendHead + UserInfoHeader + UserLines(users)|;
            instruction != "" ==> IsPrefix(InstructionLabel + instruction + "\n", RecommendPrompt(users, instruction)[k..])
  {
    var i := RecommendInstruction(instruction);
    DropHead(RecommendHead, UserInfoHeader, UserLines(users), i, RecommendTail);
    AppendEnds(i, RecommendTail);
  }

  /** Helper: what follows the first three pieces of a five-piece string. */
  lemma DropHead(a: string, b: string, c: string, d: string, e: string)
    ensures (a + b + c + d + e)[|a + b + c|..] == d + e
  {
    assert a + b + c + d + e == (a + b + c) + (d + e);
  }

  /** The candidate block of the prompt lists every candidate on a line of
      its own, in order. */
  lemma RecommendListsCandidates(users: seq<UserCard>, instruction: string)
    requires forall i :: 0 <= i < |users| ==> SingleLineCard(users[i])
    ensures var start := |RecommendHead + UserInfoHeader|;
            Split(RecommendPrompt(users, instruction)[start..start + |UserLines(users)|], '\n')
              == Map(users, UserLineText) + [""]
  {
    var head := RecommendHead + UserInfoHeader;
    var p := RecommendPrompt(users, instruction);
    assert p == head + UserLines(users) + (RecommendInstruction(instruction) + RecommendTail);
    assert p[|head|..|head| + |UserLines(users)|] == UserLines(users);
    UserLinesSplit(users);
  }

  class GeminiUseCase {
    const geminiDao: GeminiDAO

    constructor (geminiDao: GeminiDAO)
      ensures this.geminiDao == geminiDao
    {
      this.geminiDao := geminiDao;
    }

    /** GenerateBio: a failed history fetch is wrapped and the service is
        not called; otherwise, even for an empty history, the bio prompt is
        sent and the service's answer returned as it is. */
    method GenerateBio(authId: string, instruction: string, fault: Fault, generate: string -> Result<string>)
      returns (sent: Option<string>, r: Result<string>)
      ensures var tweets := Collect(UserPostRows(geminiDao.db.posts, authId), ContentOf, fault);
              (tweets.Err? ==> sent.None? && r == Err(Wrapped(HistoryContext, tweets.error)))
              && (tweets.Ok? ==> sent == Some(BioPrompt(tweets.value, instruction)) && r == generate(sent.value))
    {
      var tweets := geminiDao.FetchUserPostContents(authId, fault);
      if tweets.Err? {
        return None, Err(Wrapped(HistoryContext, tweets.error));
      }
      var prompt := BioPrompt(tweets.value, instruction);
      sent := Some(prompt);
      r := generate(prompt);
    }

    /** GenerateName: as GenerateBio, with the name template. */
    method GenerateName(authId: string, instruction: string, fault: Fault, generate: string -> Result<string>)
      returns (sent: Option<string>, r: Result<string>)
      ensures var tweets := Collect(UserPostRows(geminiDao.db.posts, authId), ContentOf, fault);
              (tweets.Err? ==> sent.None? && r == Err(Wrapped(HistoryContext, tweets.error)))
              && (tweets.Ok? ==> sent == Some(NamePrompt(tweets.value, instruction)) && r == generate(sent.value))
    {
      var tweets := geminiDao.FetchUserPostContents(authId, fault);
      if tweets.Err? {
        return None, Err(Wrapped(HistoryContext, tweets.error));
      }
      var prompt := NamePrompt(tweets.value, instruction);
      sent := Some(prompt);
      r := generate(prompt);
    }

    /** GenerateTweetContinuation: as GenerateBio, with the continuation
        prompt and its optional draft section. */
    method GenerateTweetContinuation(authId: string, instruction: string, tempText: string, fault: Fault,
                                     generate: string -> Result<string>)
      returns (sent: Option<string>, r: Result<string>)
      ensures var tweets := Collect(UserPostRows(geminiDao.db.posts, authId), ContentOf, fault);
              (tweets.Err? ==> sent.None? && r == Err(Wrapped(HistoryContext, tweets.error)))
              && (tweets.Ok? ==> sent == Some(ContinuationPrompt(tweets.value, instruction, tempText))
                                 && r == generate(sent.value))
    {
      var tweets := geminiDao.FetchUserPostContents(authId, fault);
      if tweets.Err? {
        return None, Err(Wrapped(HistoryContext, tweets.error));
      }
      var prompt := ContinuationPrompt(tweets.value, instruction, tempText);
      sent := Some(prompt);
      r := generate(prompt);
    }

    /** CheckIfPostIsBad: a missing, deleted or unreadable post is wrapped
        and the service is not called; otherwise the YES/NO prompt about the
        post's content is sent. */
    method CheckIfPostIsBad(postId: string, failure: Option<nat>, generate: string -> Result<string>)
      returns (sent: Option<string>, r: Result<string>)
      ensures var content := PostContentResult(geminiDao.db.posts, postId, failure);
              (content.Err? ==> sent.None? && r == Err(Wrapped(ContentContext, content.error)))
              && (content.Ok? ==> sent == Some(BadPostPrompt(content.value)) && r == generate(sent.value))
    {
      var content := geminiDao.GetPostContent(postId, failure);
      if content.Err? {
        return None, Err(Wrapped(ContentContext, content.error));
      }
      var prompt := BadPostPrompt(content.value);
      sent := Some(prompt);
      r := generate(prompt);
    }

    /** UpdateIsBad: the DAO's update, passed through. */
    method UpdateIsBad(postId: string, isBad: bool, failure: Option<nat>) returns (err: Option<Error>)
      modifies geminiDao.db`posts
      ensures failure.Some? ==> err == Some(Wrapped(IsBadUpdateContext, DbError(failure.value)))
                                && geminiDao.db.posts == old(geminiDao.db.posts)
      ensures failure.None? ==> err.None? && geminiDao.db.posts == SetIsBadRows(old(geminiDao.db.posts), postId, isBad)
    {
      err := geminiDao.UpdateIsBad(postId, isBad, failure);
    }

    /** RecommendUsers: a failed candidate fetch is wrapped and the service
        is not called; otherwise the recommendation prompt over the
        candidates is sent, and a failure of the service is wrapped too. */
    method RecommendUsers(authId: string, instruction: string, fault: Fault, generate: string -> Result<string>)
      returns (sent: Option<string>, r: Result<string>)
      ensures var found := Collect(UnfollowedRows(geminiDao.db.users, geminiDao.db.followers, authId), CandidateOf, fault);
              (found.Err? ==> sent.None? && r == Err(Wrapped(UnfollowedContext, found.error)))
              && (found.Ok? ==> sent == Some(RecommendPrompt(found.value, instruction))
                                && (generate(sent.value).Err? ==> r == Err(Wrapped(RecommendContext, generate(sent.value).error)))
                                && (generate(sent.value).Ok? ==> r == generate(sent.value)))
    {
      var found := geminiDao.FetchUnfollowedUsers(authId, fault);
      if found.Err? {
        return None, Err(Wrapped(UnfollowedContext, found.error));
      }
      var info := UserInfo(found.value);
      var prompt := RecommendHead + UserInfoHeader + info + RecommendInstruction(instruction) + RecommendTail;
      sent := Some(prompt);
      var reply := generate(prompt);
      if reply.Err? {
        return sent, Err(Wrapped(RecommendContext, reply.error));
      }
      r := reply;
    }
  }
}
