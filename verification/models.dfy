/**
 * The three webhook payload records and their `__str__` renderings.
 * Constructor defaults mirror the dataclass defaults, so `Field()`,
 * `Embed()` and `Notification()` are the records built with no arguments.
 */
module Models {
  import opened Text

  /** One name/value entry of an embed. */
  datatype Field = Field(name: string := "", value: string := "", inline: bool := false)

  /** An embed block: a description, a colour and an ordered list of fields. */
  datatype Embed = Embed(description: string := "", color: int := 0, fields: seq<Field> := [])

  /** The top-level webhook message. */
  datatype Notification = Notification(
    content: string := "",
    username: string := "",
    avatarUrl: string := "",
    embeds: seq<Embed> := [])

  /** A field renders as its name, a colon and a space, then its value. */
  function FieldText(f: Field): (r: string)
    ensures |r| == |f.name| + 2 + |f.value|
    ensures r[..|f.name|] == f.name
    ensures r[|f.name|..|f.name| + 2] == ": "
    ensures r[|f.name| + 2..] == f.value
  {
    f.name + ": " + f.value
  }

  function FieldTexts(fs: seq<Field>): (r: seq<string>)
    ensures |r| == |fs|
    ensures forall j :: 0 <= j < |fs| ==> r[j] == FieldText(fs[j])
  {
    if |fs| == 0 then [] else [FieldText(fs[0])] + FieldTexts(fs[1..])
  }

  /** An embed renders as its fields' renderings, one per line. */
  function EmbedText(e: Embed): (r: string)
    ensures e.fields == [] ==> r == ""
    ensures |e.fields| == 1 ==> r == FieldText(e.fields[0])
  {
    Join("\n", FieldTexts(e.fields))
  }

  function EmbedTexts(es: seq<Embed>): (r: seq<string>)
    ensures |r| == |es|
    ensures forall i :: 0 <= i < |es| ==> r[i] == EmbedText(es[i])
  {
    if |es| == 0 then [] else [EmbedText(es[0])] + EmbedTexts(es[1..])
  }

  /** A notification renders as its content, a colon and a newline, then its embeds one per line. */
  function NotificationText(n: Notification): (r: string)
    ensures |r| >= |n.content| + 2
    ensures r[..|n.content|] == n.content
    ensures r[|n.content|..|n.content| + 2] == ":\n"
    ensures n.embeds == [] ==> r == n.content + ":\n"
  {
    n.content + ":\n" + Join("\n", EmbedTexts(n.embeds))
  }

  /** The dataclass defaults: every text empty, colour 0, no children. */
  lemma DefaultValues()
    ensures Field().name == "" && Field().value == "" && !Field().inline
    ensures Embed().description == "" && Embed().color == 0 && Embed().fields == []
    ensures Notification().content == "" && Notification().username == ""
    ensures Notification().avatarUrl == "" && Notification().embeds == []
    ensures FieldText(Field()) == ": "
    ensures EmbedText(Embed()) == ""
    ensures NotificationText(Notification()) == ":\n"
  {
  }

  /** Each field's rendering appears in its embed's rendering. */
  lemma EmbedShowsField(e: Embed, j: nat)
    requires j < |e.fields|
    ensures Occurs(FieldText(e.fields[j]), EmbedText(e))
  {
    var texts := FieldTexts(e.fields);
    JoinPartAt("\n", texts, j);
  }

  /**
   * Each field of each embed appears, as `name: value`, in the
   * notification's rendering, which is what print mode logs.
   */
  lemma NotificationShowsField(n: Notification, i: nat, j: nat)
    requires i < |n.embeds| && j < |n.embeds[i].fields|
    ensures Occurs(FieldText(n.embeds[i].fields[j]), NotificationText(n))
  {
    var e := n.embeds[i];
    var u := FieldText(e.fields[j]);
    var etexts := EmbedTexts(n.embeds);
    var body := Join("\n", etexts);
    JoinPartAt("\n", etexts, i);
    var k1 := PartOffset("\n", etexts, i);
    assert OccursAt(EmbedText(e), body, k1);
    EmbedShowsField(e, j);
    var k2 :| 0 <= k2 <= |EmbedText(e)| && OccursAt(u, EmbedText(e), k2);
    OccursAtCompose(u, EmbedText(e), body, k1, k2);
    OccursAtShift(u, n.content + ":\n", body, k1 + k2);
    assert NotificationText(n) == (n.content + ":\n") + body;
    assert OccursAt(u, NotificationText(n), |n.content + ":\n"| + k1 + k2);
  }
}
