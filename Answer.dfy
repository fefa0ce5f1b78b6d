/** The answer selector: a keyword-triggered choice among fixed templates, filled in
    from the context record that `generate_report` produced. */
module Answer {
  import opened Wrappers
  import opened Text
  import opened Dates
  import opened Report

  /** The fields of the context dictionary the selector reads; each may be missing. */
  datatype Context = Context(name: Option<string>, sunSign: Option<string>,
                             element: Option<string>, shortProfile: Option<string>)

  /** The context dictionary of a built report: an error record has none of the fields. */
  function ContextOf(r: Report): Context {
    match r
    case ErrorReport(_) => Context(None, None, None, None)
    case Profile(name, _, _, sign, element, _, _, short, _) =>
      Context(Some(name), Some(sign), element, short)
  }

  const EmptyPrompt: string := "Please type a question about your career, love life, or personality."

  const CareerKeywords: seq<string> := ["career", "job", "work", "promotion"]
  const LoveKeywords: seq<string> := ["love", "relationship", "partner", "marriage"]
  const HealthKeywords: seq<string> := ["health", "fitness", "wellness"]

  /** The sign name the templates show: the context's sign, or `unknown`, in title case. */
  function SignShown(ctx: Context): string {
    Title(ctx.sunSign.GetOr("unknown"))
  }

  function CareerAnswer(ctx: Context): string {
    "For a " + SignShown(ctx) + " (element: " + Show(ctx.element)
      + "), steady progress and practical planning usually bring the best results. Focus on consistent effort and visible small wins."
  }

  function LoveAnswer(ctx: Context): string {
    Show(ctx.name) + ", as a " + SignShown(ctx) + ", you value " + Show(ctx.element)
      + "-style expression. Be clear about needs and listen; steady demonstrations of care matter more than grand gestures."
  }

  function HealthAnswer(ctx: Context): string {
    "Small, regular routines suit " + SignShown(ctx)
      + " — aim for balanced sleep, moderate exercise, and mindful breaks."
  }

  function FallbackAnswer(ctx: Context): string {
    Show(ctx.name) + ", " + SignShown(ctx) + " energy combines " + Show(ctx.element)
      + " traits — remember your strengths ( " + Show(ctx.shortProfile)
      + " ). Try to convert them into one concrete action this week."
  }

  /** The question as the selector matches it: lower-cased and trimmed. */
  function Normalize(question: Option<string>): string {
    Strip(Lower(question.GetOr("")))
  }

  /** The categories in priority order. */
  datatype Topic = NoQuestion | Career | Love | Health | General

  /** The keyword rules of `answer_question` on the normalized question `q`: an empty
      question, else the first category whose keyword list has a member in `q`. */
  function SelectTopic(q: string): Topic {
    if q == [] then NoQuestion
    else if AnyContained(CareerKeywords, q) then Career
    else if AnyContained(LoveKeywords, q) then Love
    else if AnyContained(HealthKeywords, q) then Health
    else General
  }

  /** The answer for each topic: the first template of its category. */
  function Rendered(t: Topic, ctx: Context): string {
    match t
    case NoQuestion => EmptyPrompt
    case Career => CareerAnswer(ctx)
    case Love => LoveAnswer(ctx)
    case Health => HealthAnswer(ctx)
    case General => FallbackAnswer(ctx)
  }

  /** `answer_question`. */
  function AnswerQuestion(question: Option<string>, ctx: Context): string {
    Rendered(SelectTopic(Normalize(question)), ctx)
  }

  /** Some keyword of the list occurs somewhere in `q`. */
  ghost predicate Mentions(q: string, keywords: seq<string>) {
    exists i, p :: 0 <= i < |keywords| && OccursAt(q, keywords[i], p)
  }

  /** The scan for any keyword agrees with the occurrence-based reading. */
  lemma AnyContainedIff(keywords: seq<string>, q: string)
    ensures AnyContained(keywords, q) <==> Mentions(q, keywords)
  {
    forall i | 0 <= i < |keywords| {
      ContainsIff(q, keywords[i]);
    }
  }

  /** The topic of a normalized question, read with occurrences instead of the scan:
      none for an empty question, else the first category in the order career, love,
      health with a keyword occurring in it, else general. */
  ghost function TopicOf(q: string): Topic {
    if q == [] then NoQuestion
    else if Mentions(q, CareerKeywords) then Career
    else if Mentions(q, LoveKeywords) then Love
    else if Mentions(q, HealthKeywords) then Health
    else General
  }

  /** The keyword scan picks the topic the occurrence-based reading describes. */
  lemma SelectTopicIsTopicOf(q: string)
    ensures SelectTopic(q) == TopicOf(q)
  {
    AnyContainedIff(CareerKeywords, q);
    AnyContainedIff(LoveKeywords, q);
    AnyContainedIff(HealthKeywords, q);
  }

  /** The selector answers with the template of the question's topic. */
  lemma AnswerByTopic(question: Option<string>, ctx: Context)
    ensures AnswerQuestion(question, ctx) == Rendered(TopicOf(Normalize(question)), ctx)
  {
    SelectTopicIsTopicOf(Normalize(question));
  }

  /** A missing question, or one that is white space only, gets the fixed prompt. */
  lemma BlankQuestion(question: Option<string>, ctx: Context)
    requires question.Some? ==> forall k :: 0 <= k < |question.value| ==> IsSpace(question.value[k])
    ensures AnswerQuestion(question, ctx) == EmptyPrompt
  {
    LowerKeepsSpace(question.GetOr(""));
    StripSpec(Lower(question.GetOr("")));
  }

  /** A question with a character other than white space is matched against the keywords. */
  lemma NonBlankQuestion(question: string)
    requires exists k :: 0 <= k < |question| && !IsSpace(question[k])
    ensures Normalize(Some(question)) != []
  {
    LowerKeepsSpace(question);
    StripSpec(Lower(question));
  }

  /** The match ignores case: a question, its lower-case and its upper-case form get the
      same answer. */
  lemma AnswerIgnoresCase(question: string, ctx: Context)
    ensures AnswerQuestion(Some(Lower(question)), ctx) == AnswerQuestion(Some(question), ctx)
    ensures AnswerQuestion(Some(Upper(question)), ctx) == AnswerQuestion(Some(question), ctx)
  {
    LowerIdempotent(question);
    LowerOfUpper(question);
    assert Normalize(Some(Lower(question))) == Normalize(Some(question));
    assert Normalize(Some(Upper(question))) == Normalize(Some(question));
  }

  /** Any two questions that differ only in the case of ASCII letters get the same
      answer. */
  lemma CaseVariantsAgree(a: string, b: string, ctx: Context)
    requires Lower(a) == Lower(b)
    ensures AnswerQuestion(Some(a), ctx) == AnswerQuestion(Some(b), ctx)
  {
  }

  /** A question already in lower case and trimmed is its own normalized form. */
  lemma NormalizeKeepsNormal(q: string)
    requires forall k :: 0 <= k < |q| ==> !IsUpper(q[k])
    requires q != [] ==> !IsSpace(q[0]) && !IsSpace(q[|q| - 1])
    ensures Normalize(Some(q)) == q
  {
    LowerKeepsLowerCase(q);
    StripKeepsTrimmed(q);
  }

  /** Career is tested first: a career keyword decides the topic whatever else occurs. */
  lemma CareerFirst(q: string)
    requires q != [] && Mentions(q, CareerKeywords)
    ensures SelectTopic(q) == Career
  {
    AnyContainedIff(CareerKeywords, q);
  }

  /** A love keyword decides the topic when no career keyword occurs. */
  lemma LoveSecond(q: string)
    requires q != [] && !Mentions(q, CareerKeywords) && Mentions(q, LoveKeywords)
    ensures SelectTopic(q) == Love
  {
    AnyContainedIff(CareerKeywords, q);
    AnyContainedIff(LoveKeywords, q);
  }

  /** A question naming both a job and a marriage mentions both categories and is
      classed as a career question. */
  lemma JobAndMarriageTopic(q: string)
    requires q == "will my job help my marriage"
    ensures Mentions(q, CareerKeywords) && Mentions(q, LoveKeywords)
    ensures SelectTopic(Normalize(Some(q))) == Career
  {
    NormalizeKeepsNormal(q);
    JobAndMarriageMentions(q);
    CareerFirst(q);
  }

  /** Both "job" and "marriage" occur in it. */
  lemma JobAndMarriageMentions(q: string)
    requires q == "will my job help my marriage"
    ensures Mentions(q, CareerKeywords) && Mentions(q, LoveKeywords)
  {
    assert OccursAt(q, CareerKeywords[1], 8);
    assert OccursAt(q, LoveKeywords[3], 20);
  }

  /** ... and so it gets the career answer. */
  lemma CareerBeforeLove(q: string, ctx: Context)
    requires q == "will my job help my marriage"
    ensures AnswerQuestion(Some(q), ctx) == CareerAnswer(ctx)
  {
    JobAndMarriageTopic(q);
  }

  /** None of the keywords occurs in the question "tell me about my day": each has a
      letter the question lacks ... */
  lemma DayHasNoKeyword(q: string)
    requires q == "tell me about my day"
    ensures !AnyContained(CareerKeywords, q)
    ensures !AnyContained(LoveKeywords, q)
    ensures !AnyContained(HealthKeywords, q)
  {
    NoneContainedByLetters(CareerKeywords, "cjwp", q);
    NoneContainedByLetters(LoveKeywords, "vrpr", q);
    NoneContainedByLetters(HealthKeywords, "hfw", q);
  }

  /** ... so it is a general question ... */
  lemma DayQuestionTopic(q: string)
    requires q == "tell me about my day"
    ensures SelectTopic(Normalize(Some(q))) == General
  {
    NormalizeKeepsNormal(q);
    DayHasNoKeyword(q);
  }

  /** ... and so it gets the fallback answer. */
  lemma FallbackForDay(q: string, ctx: Context)
    requires q == "tell me about my day"
    ensures AnswerQuestion(Some(q), ctx) == FallbackAnswer(ctx)
  {
    DayQuestionTopic(q);
  }

  /** "Will I get a promotion?" is a career question once lower-cased ... */
  lemma PromotionTopic(q: string)
    requires q == "Will I get a promotion?"
    ensures SelectTopic(Normalize(Some(q))) == Career
  {
    var lowered := Lower(q);
    assert !IsSpace(lowered[0]) && !IsSpace(lowered[|lowered| - 1]);
    StripKeepsTrimmed(lowered);
    PromotionOccurs(q);
    CareerFirst(lowered);
  }

  /** "promotion" occurs in the lower-cased question. */
  lemma PromotionOccurs(q: string)
    requires q == "Will I get a promotion?"
    ensures Mentions(Lower(q), CareerKeywords)
  {
    assert OccursAt(q, CareerKeywords[3], 13);
    LowerKeepsOccurrence(q, CareerKeywords[3], 13);
  }

  /** ... and so it gets the career answer. */
  lemma PromotionAnswer(q: string, ctx: Context)
    requires q == "Will I get a promotion?"
    ensures AnswerQuestion(Some(q), ctx) == CareerAnswer(ctx)
  {
    PromotionTopic(q);
  }

  /** A context with the sign `leo` shows it as `Leo`. */
  lemma LeoShown(ctx: Context)
    requires ctx.sunSign == Some("leo")
    ensures SignShown(ctx) == "Leo"
  {
    TitleOfLowerWord("leo");
  }

  /** The script's demonstration: Asha, born 1 August 1995 at 09:30, asks about a
      promotion and gets the career answer for a Leo of the Fire element. */
  lemma AshaPromotion(parse: Parser, iso: DateTime -> string, now: DateTime, q: string, ctx: Context)
    requires parse("1995-08-01 09:30") == Success(DateTime(1995, 8, 1, 9, 30, 0))
    requires ctx == ContextOf(GenerateReport("Asha", "1995-08-01", Some("09:30"), "Mumbai, India", parse, iso, now))
    requires q == "Will I get a promotion?"
    ensures && AnswerQuestion(Some(q), ctx) == CareerAnswer(ctx)
            && SignShown(ctx) == "Leo" && Show(ctx.element) == "Fire"
  {
    AshaContext(parse, iso, now);
    PromotionAnswer(q, ctx);
    LeoShown(ctx);
  }

  /** The context of Asha's report names her, and her sign and element. */
  lemma AshaContext(parse: Parser, iso: DateTime -> string, now: DateTime)
    requires parse("1995-08-01 09:30") == Success(DateTime(1995, 8, 1, 9, 30, 0))
    ensures var ctx := ContextOf(GenerateReport("Asha", "1995-08-01", Some("09:30"), "Mumbai, India", parse, iso, now));
            ctx.name == Some("Asha") && ctx.sunSign == Some("leo") && ctx.element == Some("Fire")
  {
    AshaExample(parse, iso, now);
  }

  /** A context without a sign shows the sign as `Unknown`. */
  lemma MissingSignShownUnknown(ctx: Context)
    requires ctx.sunSign.None?
    ensures SignShown(ctx) == "Unknown"
  {
    TitleOfLowerWord("unknown");
  }

  /** The context of an error record shows the sign as `Unknown` and every other field
      as `None`. */
  lemma ErrorContextPlaceholders(err: string)
    ensures var ctx := ContextOf(ErrorReport(err));
            SignShown(ctx) == "Unknown" && Show(ctx.name) == "None" && Show(ctx.element) == "None"
            && Show(ctx.shortProfile) == "None"
  {
    MissingSignShownUnknown(ContextOf(ErrorReport(err)));
  }
}
