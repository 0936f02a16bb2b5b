/** The sample-content page: the configured title and description, and
    one numbered card per configured sample question. */
module SampleContentPage {
  import opened Js
  import opened Optional
  import Text
  import SettingsContext

  const NoSamples: string := "No sample content available. Please configure in admin settings."

  /** What follows the number in a heading: `: <topic>` when the topic is set. */
  function TopicSuffix(topic: Json): (r: string)
    ensures r == [] <==> !Truthy(topic)
    ensures r != [] ==> r[0] == ':'
  {
    if Truthy(topic) then ": " + JsString(topic) else ""
  }

  /** The heading of the sample at `index`: `Question <n>` with `n` counted
      from one, followed by `: <topic>` when the topic is set. */
  function Heading(index: nat, topic: Json): (h: string)
    ensures |h| > 9 && h[..9] == "Question "
    ensures !Truthy(topic) ==> h == "Question " + Text.NatToString(index + 1)
    ensures Truthy(topic) ==> h == "Question " + Text.NatToString(index + 1) + ": " + JsString(topic)
  {
    "Question " + (Text.NatToString(index + 1) + TopicSuffix(topic))
  }

  /** How many digits the text starts with. */
  function LeadingDigits(s: string): nat
  {
    if s != [] && Text.IsDigit(s[0]) then 1 + LeadingDigits(s[1..]) else 0
  }

  /** A run of digits followed by nothing or by `:` is exactly the text's
      leading digits: where the number ends is unambiguous. */
  lemma {:induction false} DigitsEndAtColon(a: string, x: string)
    requires forall k :: 0 <= k < |a| ==> Text.IsDigit(a[k])
    requires x == [] || x[0] == ':'
    ensures LeadingDigits(a + x) == |a|
  {
    if a == [] {
      assert a + x == x;
    } else {
      assert (a + x)[1..] == a[1..] + x;
      DigitsEndAtColon(a[1..], x);
    }
  }

  /** Two samples at different positions never share a heading, whatever
      their topics. */
  lemma HeadingsDistinct(i: nat, j: nat, ti: Json, tj: Json)
    requires Heading(i, ti) == Heading(j, tj)
    ensures i == j
  {
    var a := Text.NatToString(i + 1);
    var b := Text.NatToString(j + 1);
    var x := TopicSuffix(ti);
    var y := TopicSuffix(tj);
    assert a + x == Heading(i, ti)[9..];
    assert b + y == Heading(j, tj)[9..];
    DigitsEndAtColon(a, x);
    DigitsEndAtColon(b, y);
    assert a == (a + x)[..|a|];
    assert b == (b + y)[..|b|];
    Text.NatToStringInjective();
  }

  /** One sample card: its heading, and the question and solution when set. */
  datatype Card = Card(heading: string, question: Option<Json>, solution: Option<Json>)

  function CardOf(index: nat, sample: Json): (c: Card)
    ensures c.heading == Heading(index, Prop(sample, "topic"))
    ensures c.question.Some? <==> Truthy(Prop(sample, "question"))
    ensures c.question.Some? ==> c.question.value == Prop(sample, "question")
    ensures c.solution.Some? <==> Truthy(Prop(sample, "solution"))
    ensures c.solution.Some? ==> c.solution.value == Prop(sample, "solution")
  {
    Card(Heading(index, Prop(sample, "topic")), WhenTruthy(Prop(sample, "question")), WhenTruthy(Prop(sample, "solution")))
  }

  /** What the page shows: the header texts, then either the sample cards
      or the notice that there are none. */
  datatype View = View(title: Option<Json>, description: Option<Json>, body: Body)
  datatype Body = Samples(cards: seq<Card>) | Notice(text: string)

  function SampleView(s: SettingsContext.Settings): (v: View)
    ensures v.title == WhenTruthy(s.sampleContent.title) && v.description == WhenTruthy(s.sampleContent.description)
    ensures v.body.Notice? <==> s.sampleContent.samples == []
    ensures v.body.Notice? ==> v.body.text == NoSamples
    ensures v.body.Samples? ==>
      (|v.body.cards| == |s.sampleContent.samples|
       && forall i :: 0 <= i < |v.body.cards| ==> v.body.cards[i] == CardOf(i, s.sampleContent.samples[i]))
  {
    var samples := s.sampleContent.samples;
    var body := if |samples| > 0
                then Samples(seq(|samples|, i requires 0 <= i < |samples| => CardOf(i, samples[i])))
                else Notice(NoSamples);
    View(WhenTruthy(s.sampleContent.title), WhenTruthy(s.sampleContent.description), body)
  }

  /** Every card of the page has its own heading. */
  lemma CardHeadingsDistinct(s: SettingsContext.Settings, i: nat, j: nat)
    requires SampleView(s).body.Samples?
    requires i < j < |SampleView(s).body.cards|
    ensures SampleView(s).body.cards[i].heading != SampleView(s).body.cards[j].heading
  {
    var samples := s.sampleContent.samples;
    if Heading(i, Prop(samples[i], "topic")) == Heading(j, Prop(samples[j], "topic")) {
      HeadingsDistinct(i, j, Prop(samples[i], "topic"), Prop(samples[j], "topic"));
    }
  }
}
