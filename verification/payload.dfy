/**
 * The pure part of `notify` in URL mode: filling the sender defaults and
 * normalising empty field values on the (copied) notification.
 */
module Payload {
  import opened Wrappers
  import opened Models

  /** The placeholder the webhook accepts in place of an empty field value. */
  const Placeholder: string := "-"

  /** The own value, or the default when the own value is empty and the default is set and non-empty. */
  function Fill(own: string, default: Option<string>): string {
    if Truthy(default) && own == "" then default.value else own
  }

  /** Reference rule for one defaulted attribute: `got` is what the defaults rule yields from `own`. */
  predicate FilledFrom(own: string, default: Option<string>, got: string) {
    && (own != "" ==> got == own)
    && (own == "" && Truthy(default) ==> got == default.value)
    && (own == "" && !Truthy(default) ==> got == "")
  }

  /** Fills `username` and `avatarUrl` from the configured defaults; never overwrites a set value. */
  function ApplyDefaults(n: Notification, defaultUsername: Option<string>, defaultAvatarUrl: Option<string>)
    : (r: Notification)
    ensures r.content == n.content && r.embeds == n.embeds
    ensures FilledFrom(n.username, defaultUsername, r.username)
    ensures FilledFrom(n.avatarUrl, defaultAvatarUrl, r.avatarUrl)
    ensures r.username != "" <==> n.username != "" || Truthy(defaultUsername)
    ensures r.avatarUrl != "" <==> n.avatarUrl != "" || Truthy(defaultAvatarUrl)
  {
    n.(username := Fill(n.username, defaultUsername), avatarUrl := Fill(n.avatarUrl, defaultAvatarUrl))
  }

  /** Reference rule for one field: only an empty value changes, and it becomes the placeholder. */
  predicate FieldShaped(f: Field, g: Field) {
    && g.name == f.name
    && g.inline == f.inline
    && (f.value == "" ==> g.value == Placeholder)
    && (f.value != "" ==> g.value == f.value)
  }

  predicate EmbedShaped(e: Embed, q: Embed) {
    && q.description == e.description
    && q.color == e.color
    && |q.fields| == |e.fields|
    && forall j :: 0 <= j < |e.fields| ==> FieldShaped(e.fields[j], q.fields[j])
  }

  /** Every field value of every embed is non-empty. */
  predicate AllValuesNonEmpty(n: Notification) {
    forall i, j :: 0 <= i < |n.embeds| && 0 <= j < |n.embeds[i].fields| ==> n.embeds[i].fields[j].value != ""
  }

  function NormalizeField(f: Field): (g: Field)
    ensures FieldShaped(f, g)
    ensures g.value != ""
  {
    if f.value == "" then f.(value := Placeholder) else f
  }

  function NormalizeFields(fs: seq<Field>): (r: seq<Field>)
    ensures |r| == |fs|
    ensures forall j :: 0 <= j < |fs| ==> FieldShaped(fs[j], r[j]) && r[j].value != ""
  {
    if |fs| == 0 then [] else [NormalizeField(fs[0])] + NormalizeFields(fs[1..])
  }

  function NormalizeEmbed(e: Embed): (q: Embed)
    ensures EmbedShaped(e, q)
    ensures forall j :: 0 <= j < |q.fields| ==> q.fields[j].value != ""
  {
    e.(fields := NormalizeFields(e.fields))
  }

  function NormalizeEmbeds(es: seq<Embed>): (r: seq<Embed>)
    ensures |r| == |es|
    ensures forall i :: 0 <= i < |es| ==> EmbedShaped(es[i], r[i])
    ensures forall i, j :: 0 <= i < |r| && 0 <= j < |r[i].fields| ==> r[i].fields[j].value != ""
  {
    if |es| == 0 then [] else [NormalizeEmbed(es[0])] + NormalizeEmbeds(es[1..])
  }

  /** Rewrites every empty field value to the placeholder; the rest of the notification is kept. */
  function Normalize(n: Notification): (r: Notification)
    ensures r.content == n.content && r.username == n.username && r.avatarUrl == n.avatarUrl
    ensures |r.embeds| == |n.embeds|
    ensures forall i :: 0 <= i < |n.embeds| ==> EmbedShaped(n.embeds[i], r.embeds[i])
    ensures AllValuesNonEmpty(r)
  {
    n.(embeds := NormalizeEmbeds(n.embeds))
  }

  /**
   * Reference relation between a notification and the payload sent for it:
   * same content, defaulted sender, same embeds and fields in the same
   * order, only empty field values replaced.
   */
  predicate PayloadOf(n: Notification, defaultUsername: Option<string>, defaultAvatarUrl: Option<string>, p: Notification) {
    && p.content == n.content
    && FilledFrom(n.username, defaultUsername, p.username)
    && FilledFrom(n.avatarUrl, defaultAvatarUrl, p.avatarUrl)
    && |p.embeds| == |n.embeds|
    && forall i :: 0 <= i < |n.embeds| ==> EmbedShaped(n.embeds[i], p.embeds[i])
  }

  /** The payload `notify` posts: defaults first, then normalisation. */
  function BuildPayload(n: Notification, defaultUsername: Option<string>, defaultAvatarUrl: Option<string>)
    : (p: Notification)
    ensures PayloadOf(n, defaultUsername, defaultAvatarUrl, p)
    ensures AllValuesNonEmpty(p)
  {
    Normalize(ApplyDefaults(n, defaultUsername, defaultAvatarUrl))
  }

  /** The reference rule for one field determines the field. */
  lemma FieldShapedUnique(f: Field, g: Field)
    requires FieldShaped(f, g)
    ensures g == NormalizeField(f)
  {
  }

  /** The reference rule for one embed determines the embed. */
  lemma EmbedShapedUnique(e: Embed, q: Embed)
    requires EmbedShaped(e, q)
    ensures q == NormalizeEmbed(e)
  {
  }

  /** The reference relation holds of exactly one payload: the one `BuildPayload` builds. */
  lemma {:induction false} PayloadOfIffBuild(n: Notification, defaultUsername: Option<string>, defaultAvatarUrl: Option<string>, p: Notification)
    ensures PayloadOf(n, defaultUsername, defaultAvatarUrl, p) <==> p == BuildPayload(n, defaultUsername, defaultAvatarUrl)
  {
    var b := BuildPayload(n, defaultUsername, defaultAvatarUrl);
    if PayloadOf(n, defaultUsername, defaultAvatarUrl, p) {
      forall i | 0 <= i < |n.embeds|
        ensures p.embeds[i] == b.embeds[i]
      {
        EmbedShapedUnique(n.embeds[i], p.embeds[i]);
        EmbedShapedUnique(n.embeds[i], b.embeds[i]);
      }
      assert p.embeds == b.embeds;
    }
  }

  /** Normalisation leaves a notification unchanged exactly when no field value is empty. */
  lemma {:induction false} NormalizeFixpointIff(n: Notification)
    ensures Normalize(n) == n <==> AllValuesNonEmpty(n)
  {
    if AllValuesNonEmpty(n) {
      var r := Normalize(n);
      forall i | 0 <= i < |n.embeds|
        ensures r.embeds[i] == n.embeds[i]
      {
        var e := n.embeds[i];
        forall j | 0 <= j < |e.fields|
          ensures r.embeds[i].fields[j] == e.fields[j]
        {
          assert e.fields[j].value != "";
        }
        assert r.embeds[i].fields == e.fields;
      }
      assert r.embeds == n.embeds;
    }
  }

  /** Building the payload of a payload changes nothing. */
  lemma {:induction false} BuildPayloadIdempotent(n: Notification, defaultUsername: Option<string>, defaultAvatarUrl: Option<string>)
    ensures var p := BuildPayload(n, defaultUsername, defaultAvatarUrl);
            BuildPayload(p, defaultUsername, defaultAvatarUrl) == p
  {
    var p := BuildPayload(n, defaultUsername, defaultAvatarUrl);
    assert ApplyDefaults(p, defaultUsername, defaultAvatarUrl) == p;
    NormalizeFixpointIff(p);
  }
}
