/**
 * The companion's canned lines: the greeting sent when the companion joins, the
 * eight reply templates (interpolating the companion's name and specialties) and
 * the five "periodic" presence lines.
 */
module Replies {
  import opened Types
  import opened JsText
  import CompanionsRoute

  /**
   * `companion.specialties[0]` inside a template literal: reading index 0 of an
   * empty array yields `undefined`, which the template renders as "undefined".
   */
  function FirstSpecialty(c: Companion): string
  {
    if |c.specialties| > 0 then c.specialties[0] else "undefined"
  }

  /** `companion.specialties.slice(0, 2)`. */
  function FirstTwo(c: Companion): (r: seq<string>)
    ensures |r| == if |c.specialties| < 2 then |c.specialties| else 2
    ensures r == c.specialties[..|r|]
  {
    if |c.specialties| < 2 then c.specialties else c.specialties[..2]
  }

  /** A template literal with one interpolation: the text before it and the text after it. */
  datatype Template = Template(head: string, tail: string)
  {
    function Fill(x: string): string
    {
      head + x + tail
    }
  }

  /** The filled template contains what was interpolated. */
  lemma FillContains(t: Template, x: string)
    ensures Occurs(x, t.Fill(x))
  {
    OccursBetween(t.head, x, t.tail);
  }

  const Greeting := Template(
    "Hello! I'm ",
    ". I'm excited to help you learn today. What would you like to explore?")

  /** The greeting appended when the companion joins the call. */
  function JoinGreeting(c: Companion): string
  {
    Greeting.Fill(c.name)
  }

  /** The greeting names the companion. */
  lemma JoinGreetingNamesCompanion(c: Companion)
    ensures Occurs(c.name, JoinGreeting(c))
  {
    FillContains(Greeting, c.name);
  }

  const Reply0 := Template(
    "That's a fantastic question! As your ",
    " tutor, I'd love to help you understand this better. Let me break it down for you...")
  const Reply1 := Template(
    "I'm excited you're thinking about this topic! In my experience with ",
    ", this is a key concept that connects to many other ideas.")
  /** The third reply interpolates twice: the name, then the first two specialties. */
  const Reply2 := Template("Great question! You know, ", " here - I specialize in ")
  const Reply2Rest := Template("", ", so I can definitely help you explore this further.")
  const Reply3 := Template(
    "I appreciate your curiosity! This is exactly the kind of thinking that leads to deeper understanding. Let me share some insights from ",
    "...")
  const Reply4 := Template(
    "Wonderful! You're asking the right questions. As an AI companion focused on ",
    ", I'm here to guide you through this step by step.")
  const Reply5 := Template(
    "That's a thoughtful approach! I love how you're connecting ideas. In ",
    ", we often see this pattern, and here's why it matters...")
  const Reply6 := Template(
    "Excellent! You're developing critical thinking skills. Let me explain this concept in a way that builds on what you already know about ",
    ".")
  const Reply7 := Template(
    "I'm impressed by your question! This shows you're really engaging with the material. Let me walk you through this ",
    " concept...")

  /** The eight reply templates, in source order. */
  function Responses(c: Companion): seq<string>
  {
    [ Reply0.Fill(FirstSpecialty(c)),
      Reply1.Fill(Join(c.specialties, " and ")),
      Reply2.Fill(c.name) + Reply2Rest.Fill(Join(FirstTwo(c), " and ")),
      Reply3.Fill(FirstSpecialty(c)),
      Reply4.Fill(Join(c.specialties, ", ")),
      Reply5.Fill(FirstSpecialty(c)),
      Reply6.Fill(FirstSpecialty(c)),
      Reply7.Fill(FirstSpecialty(c))
    ]
  }

  /** Five of the templates interpolate the first specialty. */
  lemma ResponsesNameFirstSpecialty(c: Companion)
    ensures |Responses(c)| == 8
    ensures forall i :: i in {0, 3, 5, 6, 7} ==> Occurs(FirstSpecialty(c), Responses(c)[i])
  {
    var s := FirstSpecialty(c);
    FillContains(Reply0, s);
    FillContains(Reply3, s);
    FillContains(Reply5, s);
    FillContains(Reply6, s);
    FillContains(Reply7, s);
  }

  /** Two templates interpolate all specialties, joined with " and " and with ", ". */
  lemma ResponsesNameAllSpecialties(c: Companion)
    ensures Occurs(Join(c.specialties, " and "), Responses(c)[1])
    ensures Occurs(Join(c.specialties, ", "), Responses(c)[4])
  {
    FillContains(Reply1, Join(c.specialties, " and "));
    FillContains(Reply4, Join(c.specialties, ", "));
  }

  /** The third template interpolates the companion's name and its first two specialties. */
  lemma ResponsesNameCompanion(c: Companion)
    ensures Occurs(c.name, Responses(c)[2])
    ensures Occurs(Join(FirstTwo(c), " and "), Responses(c)[2])
  {
    var two := Join(FirstTwo(c), " and ");
    var a, b := Reply2.Fill(c.name), Reply2Rest.Fill(two);
    assert Responses(c)[2] == a + b;
    FillContains(Reply2, c.name);
    OccursInLeft(c.name, a, b);
    FillContains(Reply2Rest, two);
    OccursInRight(two, a, b);
  }

  /**
   * For a catalog companion the first-specialty templates name a real specialty,
   * never "undefined": the catalog's non-empty `specialties` is what they rely on.
   */
  lemma CatalogRepliesNameSpecialty(c: Companion)
    requires c in CompanionsRoute.Get()
    ensures FirstSpecialty(c) == c.specialties[0] != "undefined"
    ensures Occurs(c.specialties[0], Responses(c)[0])
  {
    CompanionsRoute.CatalogSpecialtiesNonEmpty(c);
    CompanionsRoute.CatalogSpecialtiesReal(c);
    FillContains(Reply0, c.specialties[0]);
  }

  /** Without specialties, the first template renders the word "undefined". */
  lemma EmptySpecialtiesRenderUndefined(c: Companion)
    requires c.specialties == []
    ensures Occurs("undefined", Responses(c)[0])
  {
    FillContains(Reply0, "undefined");
  }

  /** The five presence lines of the one-shot timer armed when the companion joins. */
  const PeriodicMessages: seq<string> := [
    "I'm here and ready to help! Feel free to ask me anything about my specialties.",
    "Don't hesitate to ask questions - that's how we learn best together!",
    "I'm enjoying our conversation! What would you like to explore next?",
    "Remember, there are no silly questions - every question is a step toward understanding!",
    "I'm here to support your learning journey. What interests you most right now?"
  ]
}
