/**
 * Prompt assembly for the answering model (`RAGService.build_prompt`), the
 * numbered context text and the context-only fallback answer
 * (`RAGService._fallback_response`), services/rag_service.py.
 */
module Prompt {
  import opened Common
  import opened Text

  /** The fixed system message. */
  const SystemPrompt: string :=
      "You are a helpful AI assistant that "
    + "answers questions based on the provided "
    + "context.\n"
    + "- The knowledge base ONLY contains "
    + "information about books (titles, "
    + "authors, descriptions, ratings, "
    + "etc.).\n"
    + "- Use the context information to "
    + "provide accurate and relevant answers "
    + "about books.\n"
    + "- If the user asks about something "
    + "that is clearly outside the domain "
    + "of books (e.g., programming, travel, "
    + "cooking) and the context does not "
    + "contain relevant information, say "
    + "that this knowledge base only contains "
    + "book data and you cannot answer "
    + "from it.\n"
    + "- In that case, you may answer briefly "
    + "from your general knowledge, but "
    + "make it clear that the answer is "
    + "not based on the provided context.\n"
    + "- If the context doesn\'t contain "
    + "enough information even for book‑related"
    + " questions, say so clearly and suggest "
    + "the user provide more details (e.g., "
    + "genre, topic, audience).\n"
    + "- Be conversational and natural "
    + "in your responses.\n"
    + "- The context may be noisy or hard "
    + "for humans to read, so rewrite and "
    + "summarize it clearly.\n"
    + "- Your tone must be polite, friendly, "
    + "and helpful.\n"
    + "- If the user query is just casual "
    + "conversation or simple researching "
    + "and does not require deep analysis, "
    + "you may ignore the context and answer "
    + "directly.\n"
    + "- IMPORTANT: You MUST always structure "
    + "your answer using the exact sections "
    + "provided in the user message:\n"
    + "  - First section: \'========Main "
    + "Response========\'\n"
    + "  - Second section (if requested): "
    + "\'========More Option========\'\n"
    + "- Do not add extra top‑level sections "
    + "outside of these. You can only write "
    + "content under those section headers."

  /** The answer template that opens with the Main Response marker. */
  const MainTemplate: string := MainMarker + "\n" + MainInstructions

  /** The follow-up template that opens with the More Option marker. */
  const MoreTemplate: string := MoreMarker + "\n" + MoreInstructions

  const MainMarker: string := "========Main Response========"
  const MoreMarker: string := "========More Option========"

  /** The instructions under the Main Response marker. */
  const MainInstructions: string :=
      "Hãy viết câu trả lời chính, rõ ràng, "
    + "súc tích, dễ hiểu cho người dùng.\n"
    + "- Nếu câu hỏi là tìm sách / gợi "
    + "ý sản phẩm, hãy nêu 1–3 lựa chọn "
    + "tốt nhất và giải thích ngắn gọn "
    + "vì sao.\n"
    + "- Nếu thông tin trong context không "
    + "đủ, hãy nói rõ là không đủ dữ liệu "
    + "và gợi ý người dùng cung cấp thêm.\n"

  /** The instructions under the More Option marker. */
  const MoreInstructions: string :=
      "Đưa ra 3–5 gợi ý dưới dạng câu hỏi "
    + "hoặc yêu cầu mà người dùng có thể "
    + "hỏi tiếp.\n"
    + "Mỗi gợi ý phải là một câu hỏi/yêu "
    + "cầu hoàn chỉnh, có thể dùng làm "
    + "button để chat tiếp.\n"
    + "Trả lời theo dạng bullet, mỗi dòng "
    + "là một câu hỏi/yêu cầu, ví dụ:\n"
    + "- Hỏi về sách lịch sử cùng chủ đề "
    + "nhưng dành cho người mới bắt đầu\n"
    + "- Hỏi gợi ý sách nâng cao hơn cho "
    + "người đã có kiến thức nền\n"
    + "- Yêu cầu tóm tắt nhanh nội dung "
    + "chính của cuốn sách vừa được gợi "
    + "ý\n"
    + "Lưu ý: Mỗi gợi ý phải là một câu "
    + "hoàn chỉnh, không cần dấu gạch đầu "
    + "dòng trong nội dung.\n"

  const PreviousHeader: string := "\n" + "\n" + "Previous questions from this conversation (for context only, do not answer them):\n"
  const IntroBase: string := "You will receive a user query"
  const IntroContext: string := " and related context from a knowledge base"
  const IntroTail: string := ".\n" + "Use them to answer the question in Vietnamese.\n" + "\n"
  const QueryLead: string := "Here is the current query"
  const QueryLabel: string := "\nQuery from user: "
  const ContextHeader: string := "\nContext from knowledge base:\n"

  /** `f"{i}. {prev_q}"`. */
  function NumberedLine(k: nat, q: string): string {
    IntToString(k) + ". " + q
  }

  /** The numbered lines `previous_context` accumulates, one `+=` per question. */
  function PreviousLines(qs: seq<string>): string
    decreases |qs|
  {
    if qs == [] then ""
    else PreviousLines(qs[..|qs| - 1]) + NumberedLine(|qs|, qs[|qs| - 1]) + "\n"
  }

  /** One more question adds its numbered line. */
  lemma PreviousLinesStep(qs: seq<string>, i: nat)
    requires i < |qs|
    ensures forall h :: h + PreviousLines(qs[..i + 1]) == h + PreviousLines(qs[..i]) + NumberedLine(i + 1, qs[i]) + "\n"
  {
    assert qs[..i + 1][..i] == qs[..i];
  }

  /** `previous_context`: empty without previous questions. */
  function PreviousBlock(qs: seq<string>): string {
    if qs != [] then PreviousHeader + PreviousLines(qs) else ""
  }

  /** `intro_text`. */
  function Intro(contextText: string): string {
    IntroBase + (if !Blank(contextText) then IntroContext else "") + IntroTail
  }

  /** `context_section`. */
  function ContextSection(contextText: string): string {
    if !Blank(contextText) then ContextHeader + contextText + "\n" else ""
  }

  /** The separator after the query lead: it mentions the context only when there is one. */
  function LeadEnd(contextText: string): string {
    if !Blank(contextText) then " and context:" else ":"
  }

  /** The part of the first prompt part before the query lead: the intro and the previous questions. */
  function QueryHead(contextText: string, qs: seq<string>): string {
    Intro(contextText) + PreviousBlock(qs)
  }

  /** The rest of the first prompt part: the lead, the query and the context section. */
  function QueryTail(contextText: string, query: string): string {
    QueryLead + LeadEnd(contextText) + (QueryLabel + query) + ContextSection(contextText)
  }

  /** The first of `user_prompt_parts`. */
  function QueryPart(contextText: string, query: string, qs: seq<string>): string {
    QueryHead(contextText, qs) + QueryTail(contextText, query)
  }

  /** `user_prompt_parts`. */
  function UserParts(contextText: string, query: string, wantOptions: bool, qs: seq<string>): seq<string> {
    [QueryPart(contextText, query, qs), MainTemplate] + (if wantOptions then [MoreTemplate] else [])
  }

  /** The user message: the parts joined by blank lines. */
  function UserPrompt(contextText: string, query: string, wantOptions: bool, qs: seq<string>): string {
    Join("\n\n", UserParts(contextText, query, wantOptions, qs))
  }

  /** The message list `build_prompt` returns. */
  function PromptMessages(contextText: string, query: string, wantOptions: bool, qs: seq<string>): seq<Message> {
    [Message("system", SystemPrompt), Message("user", UserPrompt(contextText, query, wantOptions, qs))]
  }

  /** `build_prompt`; a missing `previous_queries` is the empty list. */
  method BuildPrompt(contextText: string, query: string, isRequireMoreOption: bool, previousQueries: seq<string>)
    returns (messages: seq<Message>)
    ensures messages == PromptMessages(contextText, query, isRequireMoreOption, previousQueries)
    ensures |messages| == 2 && messages[0] == Message("system", SystemPrompt) && messages[1].role == "user"
  {
    var first := BuildQueryPart(contextText, query, previousQueries);
    var userPromptParts := [first];
    userPromptParts := userPromptParts + [MainTemplate];
    if isRequireMoreOption {
      userPromptParts := userPromptParts + [MoreTemplate];
    }
    assert userPromptParts == UserParts(contextText, query, isRequireMoreOption, previousQueries);
    var userPrompt := Join("\n\n", userPromptParts);
    messages := [Message("system", SystemPrompt), Message("user", userPrompt)];
  }

  /** The first prompt part as `build_prompt` assembles it. */
  method BuildQueryPart(contextText: string, query: string, previousQueries: seq<string>) returns (part: string)
    ensures part == QueryPart(contextText, query, previousQueries)
  {
    var previousContext := BuildPreviousContext(previousQueries);
    var userQuery := QueryLabel + query;
    var introText := IntroBase;
    if !Blank(contextText) {
      introText := introText + IntroContext;
    }
    introText := introText + IntroTail;
    var contextSection := "";
    if !Blank(contextText) {
      contextSection := ContextHeader + contextText + "\n";
    }
    assert introText == Intro(contextText);
    assert contextSection == ContextSection(contextText);
    part := (introText + previousContext) + (QueryLead + (if !Blank(contextText) then " and context:" else ":") + userQuery + contextSection);
  }

  /** `previous_context`: the header and one numbered line per previous question, in order. */
  method BuildPreviousContext(previousQueries: seq<string>) returns (previousContext: string)
    ensures previousContext == PreviousBlock(previousQueries)
  {
    previousContext := "";
    if |previousQueries| > 0 {
      previousContext := PreviousHeader;
      var i := 0;
      while i < |previousQueries|
        invariant 0 <= i <= |previousQueries|
        invariant previousContext == PreviousHeader + PreviousLines(previousQueries[..i])
      {
        PreviousLinesStep(previousQueries, i);
        previousContext := previousContext + NumberedLine(i + 1, previousQueries[i]) + "\n";
        i := i + 1;
      }
      assert previousQueries[..i] == previousQueries;
    }
  }

  /** The numbered entry `f"[{i+1}] {ctx['content']}"`. */
  function ContextEntry(k: nat, content: string): string {
    "[" + IntToString(k) + "] " + content
  }

  /** The entries for `contents`, numbered from 1. */
  function ContextEntries(contents: seq<string>): (r: seq<string>)
    ensures |r| == |contents| && forall i :: 0 <= i < |r| ==> r[i] == ContextEntry(i + 1, contents[i])
  {
    seq(|contents|, i requires 0 <= i < |contents| => ContextEntry(i + 1, contents[i]))
  }

  /** `context_text`: the numbered entries joined by blank lines. */
  function ContextText(contents: seq<string>): string {
    Join("\n\n", ContextEntries(contents))
  }

  const FallbackHead: string :=
    "Based on the available context, " + "here is relevant information:\n" + "\n"
  const FallbackTail: string :=
    "\n" + "\n" + "Note: This is a summary of retrieved " + "documents. For more natural responses, "
    + "please configure an LLM service " + "(OpenAI, Ollama, etc.) in your .env file."

  /** Python's `s[:n]`. */
  function Take(s: string, n: nat): (r: string)
    ensures |r| == if |s| <= n then |s| else n
    ensures r == s[..|r|]
  {
    if |s| <= n then s else s[..n]
  }

  /** `_fallback_response`: the query argument is not used. */
  function FallbackResponse(contextText: string): (r: string)
    ensures StartsWith(r, FallbackHead) && EndsWith(r, FallbackTail)
    ensures |r| == |FallbackHead| + (if |contextText| <= 1000 then |contextText| else 1000) + |FallbackTail|
    ensures r[|FallbackHead|..|r| - |FallbackTail|] == contextText[..|r| - |FallbackHead| - |FallbackTail|]
  {
    var r := FallbackHead + Take(contextText, 1000) + FallbackTail;
    assert r[..|FallbackHead|] == FallbackHead;
    assert r[|r| - |FallbackTail|..] == FallbackTail;
    assert r[|FallbackHead|..|r| - |FallbackTail|] == Take(contextText, 1000);
    r
  }

  // ----- Properties -----

  /** The numbered lines, one per previous question: `"1. q1"`, `"2. q2"`, ... */
  function NumberedLines(qs: seq<string>): (r: seq<string>)
    ensures |r| == |qs| && forall k :: 0 <= k < |qs| ==> r[k] == NumberedLine(k + 1, qs[k])
  {
    seq(|qs|, k requires 0 <= k < |qs| => NumberedLine(k + 1, qs[k]))
  }

  /** The accumulated lines are the numbered lines joined by newlines, with a final newline. */
  lemma {:induction false} PreviousLinesJoined(qs: seq<string>)
    requires qs != []
    ensures PreviousLines(qs) == Join("\n", NumberedLines(qs)) + "\n"
    decreases |qs|
  {
    var n := |qs| - 1;
    if n > 0 {
      PreviousLinesJoined(qs[..n]);
      assert NumberedLines(qs) == NumberedLines(qs[..n]) + [NumberedLine(n + 1, qs[n])];
      JoinAppend("\n", NumberedLines(qs[..n]), NumberedLine(n + 1, qs[n]));
    } else {
      assert NumberedLines(qs) == [NumberedLine(1, qs[0])];
    }
  }

  /** A numbered line of a one-line question is itself one line. */
  lemma NumberedLineOneLine(k: nat, q: string)
    requires '\n' !in q
    ensures '\n' !in NumberedLine(k, q)
  {
    var d := IntToString(k);
    var line := NumberedLine(k, q);
    forall i | 0 <= i < |line|
      ensures line[i] != '\n'
    {
      if i < |d| {
        assert line[i] == d[i];
      } else if i >= |d| + 2 {
        assert line[i] == q[i - |d| - 2];
      }
    }
  }

  /**
   * The previous-questions block lists the questions in order, numbered
   * from 1, one per line: split on newlines it gives back exactly the
   * numbered lines (and the empty piece after the final newline).
   */
  lemma PreviousQuestionsNumbered(qs: seq<string>)
    requires qs != []
    requires forall k :: 0 <= k < |qs| ==> '\n' !in qs[k]
    ensures Split(PreviousLines(qs), '\n') == NumberedLines(qs) + [""]
  {
    var lines := NumberedLines(qs);
    PreviousLinesJoined(qs);
    forall k | 0 <= k < |lines|
      ensures '\n' !in lines[k]
    {
      NumberedLineOneLine(k + 1, qs[k]);
    }
    SplitLines(lines, PreviousLines(qs));
  }

  /** Joining the parts by blank lines, for any query part and templates. */
  lemma PartsLayout(first: string, mainT: string, moreT: string, wantOptions: bool)
    ensures var tail := if wantOptions then "\n\n" + moreT else "";
      && Join("\n\n", [first, mainT] + (if wantOptions then [moreT] else [])) == first + "\n\n" + mainT + tail
      && first + "\n\n" + mainT + tail == first + ("\n\n" + mainT + tail)
  {
    if wantOptions {
      assert [first, mainT] + [moreT] == [first, mainT, moreT];
      JoinThree("\n\n", first, mainT, moreT);
    } else {
      assert [first, mainT] + [] == [first, mainT];
      JoinTwo("\n\n", first, mainT);
    }
  }

  /** The user message laid out: the query part, then the Main template, then the More template when requested. */
  lemma UserPromptLayout(contextText: string, query: string, wantOptions: bool, qs: seq<string>)
    ensures var first := QueryPart(contextText, query, qs);
      var tail := if wantOptions then "\n\n" + MoreTemplate else "";
      && UserPrompt(contextText, query, wantOptions, qs) == first + "\n\n" + MainTemplate + tail
      && UserPrompt(contextText, query, wantOptions, qs) == first + ("\n\n" + MainTemplate + tail)
  {
    PartsLayout(QueryPart(contextText, query, qs), MainTemplate, MoreTemplate, wantOptions);
  }

  /** The user message opens with the query part, and so with the intro. */
  lemma UserPromptStartsWithQueryPart(contextText: string, query: string, wantOptions: bool, qs: seq<string>)
    ensures StartsWith(UserPrompt(contextText, query, wantOptions, qs), QueryPart(contextText, query, qs))
    ensures StartsWith(UserPrompt(contextText, query, wantOptions, qs), Intro(contextText))
  {
    UserPromptLayout(contextText, query, wantOptions, qs);
    var tail := if wantOptions then "\n\n" + MoreTemplate else "";
    StartsWithParts(Intro(contextText), PreviousBlock(qs), QueryTail(contextText, query), "\n\n" + MainTemplate + tail);
  }

  /** A text `a + b + c + d` starts with `a + b + c` and with `a`. */
  lemma StartsWithParts(a: string, b: string, c: string, d: string)
    ensures StartsWith(a + b + c + d, a + b + c) && StartsWith(a + b + c + d, a)
  {
    StartsWithConcat(a + b + c, d);
    assert a + b + c == a + (b + c);
    StartsWithConcat(a, b + c);
    StartsWithTrans(a + b + c + d, a + b + c, a);
  }

  /** The facts about the fixed templates the properties below rely on. */
  lemma TemplateFacts()
    ensures StartsWith(MainTemplate, MainMarker)
    ensures |MainTemplate| >= 3 && MainTemplate[|MainTemplate| - 3] == 'm'
    ensures |MoreTemplate| >= 3 && MoreTemplate[|MoreTemplate| - 3] == 'g'
  {
    StartsWithConcat(MainMarker, "\n" + MainInstructions);
    assert MainTemplate == MainMarker + ("\n" + MainInstructions);
    assert MainInstructions[|MainInstructions| - 3] == 'm';
    assert MoreInstructions[|MoreInstructions| - 3] == 'g';
  }

  /** The first characters of the fixed pieces that tell the optional pieces apart. */
  lemma PieceFacts()
    ensures |IntroContext| > 0 && IntroContext[0] == ' ' && |IntroTail| > 0 && IntroTail[0] == '.'
    ensures |PreviousHeader| > 0 && PreviousHeader[0] == '\n' && |QueryLead| > 0 && QueryLead[0] == 'H'
  {
  }

  /** The user message always carries the Main Response marker, right after the query part and a blank line. */
  lemma MainMarkerPresent(contextText: string, query: string, wantOptions: bool, qs: seq<string>)
    ensures var user := UserPrompt(contextText, query, wantOptions, qs);
      var at := |QueryPart(contextText, query, qs)| + 2;
      at + |MainMarker| <= |user| && user[at..at + |MainMarker|] == MainMarker
  {
    UserPromptLayout(contextText, query, wantOptions, qs);
    TemplateFacts();
    MarkerAfterFirst(QueryPart(contextText, query, qs), MainTemplate, if wantOptions then "\n\n" + MoreTemplate else "", MainMarker);
  }

  /** A template starting with a marker puts the marker right after the first part and its blank line. */
  lemma MarkerAfterFirst(first: string, template: string, tail: string, marker: string)
    requires StartsWith(template, marker)
    ensures var s := first + "\n\n" + template + tail;
      |first| + 2 + |marker| <= |s| && s[|first| + 2..|first| + 2 + |marker|] == marker
  {
    OccursAfter(first + "\n\n", template, tail);
    OccursPrefix(first + "\n\n" + template + tail, |first| + 2, template, marker);
  }

  /** The user message ends with the More Option template exactly when options are requested. */
  lemma MoreTemplateIffRequested(contextText: string, query: string, wantOptions: bool, qs: seq<string>)
    ensures EndsWith(UserPrompt(contextText, query, wantOptions, qs), "\n\n" + MoreTemplate) <==> wantOptions
  {
    UserPromptLayout(contextText, query, wantOptions, qs);
    TemplateFacts();
    EndsWithOptional(QueryPart(contextText, query, qs), MainTemplate, MoreTemplate, wantOptions);
  }

  /** With templates whose third-last characters differ, the text ends with the optional one exactly when it is included. */
  lemma EndsWithOptional(first: string, mainT: string, moreT: string, wantOptions: bool)
    requires |mainT| >= 3 && |moreT| >= 3 && mainT[|mainT| - 3] != moreT[|moreT| - 3]
    ensures EndsWith(first + "\n\n" + mainT + (if wantOptions then "\n\n" + moreT else ""), "\n\n" + moreT) <==> wantOptions
  {
    var start := first + "\n\n";
    var tail := "\n\n" + moreT;
    if wantOptions {
      EndsWithConcat(start + mainT, tail);
    } else {
      var user := start + mainT;
      assert user == start + mainT + "";
      EndsWithConcat(start, mainT);
      EndsWithCharAt(user, mainT, 3);
      EndsWithConcat("\n\n", moreT);
      EndsWithCharAt(tail, moreT, 3);
      if |tail| <= |user| {
        NotEndsWithAt(user, tail, 3);
      }
    }
  }

  /** The intro mentions a knowledge-base context exactly when the context text is not blank. */
  lemma IntroMentionsContextIffNonBlank(contextText: string, query: string, wantOptions: bool, qs: seq<string>)
    ensures StartsWith(UserPrompt(contextText, query, wantOptions, qs), IntroBase + IntroContext + IntroTail) <==> !Blank(contextText)
  {
    UserPromptStartsWithQueryPart(contextText, query, wantOptions, qs);
    assert Intro(contextText) == IntroBase + (if !Blank(contextText) then IntroContext else "") + IntroTail;
    PieceFacts();
    StartsWithOptional(UserPrompt(contextText, query, wantOptions, qs), IntroBase, IntroContext, IntroTail, !Blank(contextText));
  }

  /** Whether a text starts with an optional piece between two fixed ones is decided by their first characters. */
  lemma StartsWithOptional(s: string, before: string, piece: string, after: string, present: bool)
    requires |piece| > 0 && |after| > 0 && piece[0] != after[0]
    requires StartsWith(s, before + (if present then piece else "") + after)
    ensures StartsWith(s, before + piece + after) <==> present
  {
    if !present {
      var expected := before + piece + after;
      assert (before + "" + after)[|before|] == after[0];
      StartsWithCharAt(s, before + "" + after, |before|);
      assert expected[|before|] == piece[0];
      NotStartsWithAt(s, expected, |before|);
    }
  }

  /** The previous-questions block follows the intro exactly when there are previous questions. */
  lemma PreviousBlockIffQuestions(contextText: string, query: string, wantOptions: bool, qs: seq<string>)
    ensures StartsWith(UserPrompt(contextText, query, wantOptions, qs), Intro(contextText) + PreviousHeader) <==> qs != []
  {
    UserPromptStartsWithQueryPart(contextText, query, wantOptions, qs);
    var tail := QueryTail(contextText, query);
    PieceFacts();
    assert tail[0] == QueryLead[0];
    StartsWithOptionalBlock(UserPrompt(contextText, query, wantOptions, qs), Intro(contextText), PreviousHeader, PreviousLines(qs), tail, qs != []);
  }

  /** Whether a text starts with an optional block's header right after a fixed start is decided by first characters. */
  lemma StartsWithOptionalBlock(s: string, before: string, header: string, body: string, after: string, present: bool)
    requires |header| > 0 && |after| > 0 && header[0] != after[0]
    requires StartsWith(s, before + (if present then header + body else "") + after)
    ensures StartsWith(s, before + header) <==> present
  {
    var whole := before + (if present then header + body else "") + after;
    if present {
      assert whole == (before + header) + (body + after);
      StartsWithConcat(before + header, body + after);
      StartsWithTrans(s, whole, before + header);
    } else {
      assert whole[|before|] == after[0];
      StartsWithCharAt(s, whole, |before|);
      assert (before + header)[|before|] == header[0];
      NotStartsWithAt(s, before + header, |before|);
    }
  }

  /** The query part ends with the context section when the context is not blank, and with the query otherwise. */
  lemma QueryPartEnding(contextText: string, query: string, qs: seq<string>)
    ensures !Blank(contextText) ==> EndsWith(QueryPart(contextText, query, qs), ContextHeader + contextText + "\n")
    ensures Blank(contextText) ==> EndsWith(QueryPart(contextText, query, qs), QueryLabel + query)
  {
    var lead := QueryLead + LeadEnd(contextText);
    var asked := lead + (QueryLabel + query);
    if Blank(contextText) {
      assert QueryTail(contextText, query) == asked + "";
      EndsWithConcat(lead, QueryLabel + query);
    } else {
      EndsWithConcat(asked, ContextSection(contextText));
    }
    EndsWithExtend(QueryHead(contextText, qs), QueryTail(contextText, query), if Blank(contextText) then QueryLabel + query else ContextSection(contextText));
  }

  /** The numbered context text is blank exactly when no document was retrieved; otherwise it opens with `"[1] "`. */
  lemma ContextTextBlankIffEmpty(contents: seq<string>)
    ensures Blank(ContextText(contents)) <==> contents == []
    ensures contents != [] ==> StartsWith(ContextText(contents), "[1] ")
  {
    if contents != [] {
      var entries := ContextEntries(contents);
      JoinStartsWithFirst("\n\n", entries);
      assert entries[0] == "[" + IntToString(1) + "] " + contents[0];
      assert IntToString(1) == "1";
      StartsWithRegroup("[1] ", contents[0], "");
      assert StartsWith(entries[0], "[1] ") by {
        assert entries[0][..4] == "[1] ";
      }
      StartsWithTrans(ContextText(contents), entries[0], "[1] ");
      StartsWithCharAt(ContextText(contents), "[1] ", 0);
    }
  }
}
