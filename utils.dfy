/** Context and prompt assembly: the `BookContext` built from the book and the
    reading view, the system prompt template, and the message list sent to a
    provider. */
module Utils {
  import opened Wrappers
  import opened Text
  import opened Types

  /** The parts of `bookData.book` that are read. */
  datatype Book = Book(title: Option<string>, author: Option<string>, primaryLanguage: Option<string>)

  datatype BookData = BookData(book: Book)

  /** The live reading view, as far as page-text extraction sees it.
      `NoView`: the view is null or has no book. `Throws`: asking the renderer
      for its contents throws. `Contents(texts)`: the renderer's contents, each
      entry being the `doc.body.textContent` of that entry when it has one
      (a missing renderer or `getContents` gives `Contents([])`). */
  datatype View = NoView | Throws | Contents(texts: seq<Option<string>>)

  /** The bound on the page text placed on the context. */
  const PageContextLimit: nat := 2000

  /** The page text the view yields: the first content entry's body text,
      when that is non-empty. */
  function ViewPageText(view: View): (t: Option<string>)
    ensures t.Some? <==> view.Contents? && |view.texts| > 0 && Truthy(view.texts[0])
    ensures t.Some? ==> t == view.texts[0] && t.value != ""
  {
    match view
    case Contents(texts) => if |texts| > 0 && Truthy(texts[0]) then texts[0] else None
    case _ => None
  }

  /** The context `buildBookContext` returns, stated field by field. */
  function BookContextOf(bookData: BookData, view: View, selectedText: string, currentPageText: Option<string>): (c: BookContext)
    ensures c.bookTitle == (if Truthy(bookData.book.title) then bookData.book.title.value else "Unknown Title")
    ensures c.author == (if Truthy(bookData.book.author) then bookData.book.author.value else "Unknown Author")
    ensures c.language == Some(if Truthy(bookData.book.primaryLanguage) then bookData.book.primaryLanguage.value else "en")
    ensures c.selectedText == selectedText && c.currentChapter == None
    // the override, when non-empty, decides the page context
    ensures Truthy(currentPageText) ==>
              c.currentPageContext.Some? && |c.currentPageContext.value| == Min(|currentPageText.value|, PageContextLimit)
              && IsPrefix(c.currentPageContext.value, currentPageText.value)
    // otherwise the view's text does, when there is any
    ensures !Truthy(currentPageText) && ViewPageText(view).Some? ==>
              c.currentPageContext.Some? && |c.currentPageContext.value| == Min(|ViewPageText(view).value|, PageContextLimit)
              && IsPrefix(c.currentPageContext.value, ViewPageText(view).value)
    // and with neither the field is left out
    ensures c.currentPageContext.None? <==> !Truthy(currentPageText) && ViewPageText(view).None?
  {
    var book := bookData.book;
    BookContext(
      OrElse(book.title, "Unknown Title"),
      OrElse(book.author, "Unknown Author"),
      selectedText,
      None,
      if Truthy(currentPageText) then Some(Slice(currentPageText.value, PageContextLimit))
      else if ViewPageText(view).Some? then Some(Slice(ViewPageText(view).value, PageContextLimit))
      else None,
      Some(OrElse(book.primaryLanguage, "en")))
  }

  function Min(a: nat, b: nat): nat { if a <= b then a else b }

  /** `buildBookContext`: starts from the defaulted fields, then overwrites the
      page context first from the view (an exception while reading the view is
      swallowed) and then from the override. It never fails. */
  method BuildBookContext(bookData: BookData, view: View, selectedText: string, currentPageText: Option<string>)
    returns (context: BookContext)
    ensures context == BookContextOf(bookData, view, selectedText, currentPageText)
  {
    var book := bookData.book;
    context := BookContext(
      OrElse(book.title, "Unknown Title"),
      OrElse(book.author, "Unknown Author"),
      selectedText,
      None,
      None,
      Some(OrElse(book.primaryLanguage, "en")));
    match view {
      case NoView =>
      case Throws =>
        // caught and logged; the context keeps no page text
      case Contents(texts) =>
        if |texts| > 0 {
          var bodyText := texts[0];
          if Truthy(bodyText) {
            context := context.(currentPageContext := Some(Slice(bodyText.value, PageContextLimit)));
          }
        }
    }
    if Truthy(currentPageText) {
      context := context.(currentPageContext := Some(Slice(currentPageText.value, PageContextLimit)));
    }
  }

  // The system prompt template, cut at its optional sections.

  const Preamble := "You are a helpful AI assistant that answers questions about books and reading. You have context about the current book and page the user is reading.\n\nBook Information:\n- Title: "

  const Closing := "\n\nPlease answer questions helpfully and accurately based on the book content and your knowledge. If the user asks about something not directly related to the selected text or book context, you can still provide helpful general information. Keep your responses concise but informative."

  function Quoted(s: string): string { "\"" + s + "\"" }

  /** Everything up to the optional Language line. */
  function Head(title: string, author: string): string {
    Preamble + (Quoted(title) + ("\n- Author: " + (Quoted(author) + "\n")))
  }

  /** The Selected Text paragraph, between the optional Language line and the
      optional page section. */
  function Middle(selectedText: string): string {
    "\n\nSelected Text: " + (Quoted(selectedText) + "\n\n")
  }

  function LanguageLine(language: Option<string>): string {
    if Truthy(language) then "- Language: " + language.value else ""
  }

  function PageSection(pageContext: Option<string>): string {
    if Truthy(pageContext) then "Current Page Context:\n" + Quoted(pageContext.value) + "\n" else ""
  }

  /** Everything after the optional Language line. */
  function AfterLanguage(selectedText: string, pageContext: Option<string>): string {
    Middle(selectedText) + PageSection(pageContext) + Closing
  }

  /** The number of characters the template itself contributes to a prompt. */
  const TemplateLength: nat := |Preamble| + |"\n- Author: "| + |"\n\nSelected Text: "| + |Closing| + 9

  /** `buildSystemPrompt`: the template with the context's fields
      interpolated. Each field enters the prompt once, and an optional section
      adds characters only when it is present. */
  function BuildSystemPrompt(c: BookContext): (p: string)
    ensures |p| == TemplateLength + |c.bookTitle| + |c.author| + |c.selectedText|
                   + |LanguageLine(c.language)| + |PageSection(c.currentPageContext)|
    ensures |LanguageLine(c.language)| == 0 <==> !Truthy(c.language)
    ensures |PageSection(c.currentPageContext)| == 0 <==> !Truthy(c.currentPageContext)
  {
    Head(c.bookTitle, c.author) + LanguageLine(c.language) + AfterLanguage(c.selectedText, c.currentPageContext)
  }

  // Rearrangements of concatenations, proved once on arbitrary strings. The
  // prompt lemmas below also verify without them, but at about twice the
  // solver effort, because the template's literals are then unfolded inside
  // every rearrangement.

  lemma InsertOne(h: string, x: string, r: string)
    ensures var base := h + "" + r;
            |h| <= |base| && h + x + r == base[..|h|] + x + base[|h|..]
  {
    assert h + "" + r == h + r;
    assert (h + r)[..|h|] == h && (h + r)[|h|..] == r;
  }

  lemma InsertTwo(h: string, l: string, m: string, x: string, cl: string)
    ensures var base := h + l + (m + "" + cl);
            var k := |h| + |l| + |m|;
            k <= |base| && h + l + (m + x + cl) == base[..k] + x + base[k..]
  {
    var front := h + l + m;
    assert h + l + (m + "" + cl) == front + cl;
    assert h + l + (m + x + cl) == front + x + cl;
    assert (front + cl)[..|front|] == front && (front + cl)[|front|..] == cl;
  }

  lemma OccursInHead(a: string, x: string, r: string, l: string, af: string)
    ensures OccursAt(x, a + (x + r) + l + af, |a|)
  {
    assert (a + (x + r) + l + af)[|a|..|a| + |x|] == x;
  }

  lemma OccursDeeper(a: string, t: string, al: string, x: string, r: string, l: string, af: string)
    ensures OccursAt(x, a + (t + (al + (x + r))) + l + af, |a| + |t| + |al|)
  {
    var k := |a| + |t| + |al|;
    assert (a + (t + (al + (x + r))) + l + af)[k..k + |x|] == x;
  }

  lemma OccursAfter(h: string, l: string, sl: string, x: string, e: string, pg: string, cl: string)
    ensures OccursAt(x, h + l + (sl + (x + e) + pg + cl), |h| + |l| + |sl|)
  {
    var k := |h| + |l| + |sl|;
    assert (h + l + (sl + (x + e) + pg + cl))[k..k + |x|] == x;
  }

  lemma PrefixSuffix(a: string, x: string, r: string, l: string, m: string, pg: string, cl: string)
    ensures var p := a + (x + r) + l + (m + pg + cl);
            IsPrefix(a + x, p) && IsSuffix(cl, p)
  {
    var p := a + (x + r) + l + (m + pg + cl);
    assert p[..|a + x|] == a + x;
    assert p[|p| - |cl|..] == cl;
  }

  /** The prompt opens with the fixed preamble and the quoted title, and ends
      with the fixed closing paragraph. */
  lemma PromptFrame(c: BookContext)
    ensures IsPrefix(Preamble + Quoted(c.bookTitle), BuildSystemPrompt(c))
    ensures IsSuffix(Closing, BuildSystemPrompt(c))
  {
    PrefixSuffix(Preamble, Quoted(c.bookTitle), "\n- Author: " + (Quoted(c.author) + "\n"),
                 LanguageLine(c.language), Middle(c.selectedText), PageSection(c.currentPageContext), Closing);
  }

  /** The Language line appears iff the language is non-empty: without one the
      prompt is the one for a context with no language at all, and with one it
      is that prompt with `LanguageLine` (`- Language: <language>`) inserted
      right after the Author line. */
  lemma LanguageLineIffLanguage(c: BookContext)
    ensures var base := BuildSystemPrompt(c.(language := None));
            var k := |Head(c.bookTitle, c.author)|;
            && k <= |base|
            && (!Truthy(c.language) ==> BuildSystemPrompt(c) == base)
            && (Truthy(c.language) ==> BuildSystemPrompt(c) == base[..k] + LanguageLine(c.language) + base[k..])
  {
    assert LanguageLine(None) == "";
    InsertOne(Head(c.bookTitle, c.author), LanguageLine(c.language), AfterLanguage(c.selectedText, c.currentPageContext));
  }

  /** The "Current Page Context" section appears iff the page context is
      non-empty, in the same sense: absent, the prompt is the one without it;
      present, `PageSection` (the quoted page text under its heading) is
      inserted after the Selected Text paragraph. */
  lemma PageSectionIffPageContext(c: BookContext)
    ensures var base := BuildSystemPrompt(c.(currentPageContext := None));
            var k := |Head(c.bookTitle, c.author)| + |LanguageLine(c.language)| + |Middle(c.selectedText)|;
            && k <= |base|
            && (!Truthy(c.currentPageContext) ==> BuildSystemPrompt(c) == base)
            && (Truthy(c.currentPageContext) ==>
                  BuildSystemPrompt(c) == base[..k] + PageSection(c.currentPageContext) + base[k..])
  {
    assert PageSection(None) == "";
    InsertTwo(Head(c.bookTitle, c.author), LanguageLine(c.language), Middle(c.selectedText),
              PageSection(c.currentPageContext), Closing);
  }

  /** Title, author and selected text are interpolated inside double quotes,
      at fixed places of the template. */
  lemma PromptQuotesFields(c: BookContext)
    ensures var p := BuildSystemPrompt(c);
            && OccursAt(Quoted(c.bookTitle), p, |Preamble|)
            && OccursAt(Quoted(c.author), p, |Preamble| + |Quoted(c.bookTitle)| + |"\n- Author: "|)
            && OccursAt(Quoted(c.selectedText), p,
                        |Head(c.bookTitle, c.author)| + |LanguageLine(c.language)| + |"\n\nSelected Text: "|)
  {
    var l := LanguageLine(c.language);
    var af := AfterLanguage(c.selectedText, c.currentPageContext);
    OccursInHead(Preamble, Quoted(c.bookTitle), "\n- Author: " + (Quoted(c.author) + "\n"), l, af);
    OccursDeeper(Preamble, Quoted(c.bookTitle), "\n- Author: ", Quoted(c.author), "\n", l, af);
    OccursAfter(Head(c.bookTitle, c.author), l, "\n\nSelected Text: ", Quoted(c.selectedText), "\n\n",
                PageSection(c.currentPageContext), Closing);
  }

  /** `createChatMessages`: one fresh system message holding the prompt, the
      previous messages with every system entry removed, then the new user
      message. */
  function CreateChatMessages(context: BookContext, userMessage: string, previousMessages: seq<ChatMessage>)
    : (ms: seq<ChatMessage>)
    ensures |ms| == 2 + |previousMessages| - CountRole(previousMessages, System)
    ensures ms[0] == ChatMessage(System, BuildSystemPrompt(context))
    ensures ms[|ms| - 1] == ChatMessage(User, userMessage)
    ensures ms[1..|ms| - 1] == NonSystem(previousMessages)
    ensures CountRole(ms, System) == 1
  {
    var middle := NonSystem(previousMessages);
    var ms := [ChatMessage(System, BuildSystemPrompt(context))] + middle + [ChatMessage(User, userMessage)];
    CountRoleAppend([ChatMessage(System, BuildSystemPrompt(context))], middle, System);
    CountRoleAppend([ChatMessage(System, BuildSystemPrompt(context))] + middle, [ChatMessage(User, userMessage)], System);
    assert ms[1..|ms| - 1] == middle;
    ms
  }

  /** Everything after the prompt: the filtered history, then the new message. */
  lemma AfterPrompt(context: BookContext, userMessage: string, previousMessages: seq<ChatMessage>)
    ensures var ms := CreateChatMessages(context, userMessage, previousMessages);
            ms[1..] == NonSystem(previousMessages) + [ChatMessage(User, userMessage)]
  {
    var ms := CreateChatMessages(context, userMessage, previousMessages);
    assert ms[1..] == ms[1..|ms| - 1] + [ms[|ms| - 1]];
  }

  /** Assembly is stable: re-assembling from a list that was itself assembled
      (system prompt included) puts the fresh prompt first and drops the old one. */
  lemma ReassemblyDropsOldPrompt(c: BookContext, c': BookContext, u: string, u': string, prev: seq<ChatMessage>)
    ensures CreateChatMessages(c', u', CreateChatMessages(c, u, prev))
              == [ChatMessage(System, BuildSystemPrompt(c'))] + (NonSystem(prev) + [ChatMessage(User, u)]) + [ChatMessage(User, u')]
  {
    var sys := [ChatMessage(System, BuildSystemPrompt(c))];
    var kept := NonSystem(prev);
    var user := [ChatMessage(User, u)];
    NonSystemAppend(sys + kept, user);
    NonSystemAppend(sys, kept);
    NonSystemOfSystemFree(kept);
    assert NonSystem(sys) == [];
    assert NonSystem(user) == user;
    assert NonSystem(CreateChatMessages(c, u, prev)) == kept + user;
  }
}
