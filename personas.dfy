/**
 * The persona catalog of the client and the pure operations the session
 * performs on it: unlocking one entry after a payment, finding the active
 * entry with its fallback, and the unlocked-only list of the quick switcher.
 */
module Personas {
  import opened Wrappers

  datatype Tag = Featured | Popular

  /** A catalog entry; the display description and the icon are not modelled. */
  datatype Persona = Persona(
    id: string,
    name: string,
    prompt: string,
    price: Option<string>,
    unlocked: bool,
    tag: Option<Tag>)

  /** The seven built-in personas, in display order; only `default` starts unlocked. */
  const Catalog: seq<Persona> := [
    Persona("default", "Default",
      "You are a compassionate, professional, and private AI therapist. Your goal is to listen, validate, and help the user explore their emotions in a safe environment. Keep responses concise but deeply empathetic. Never share personal data. Emphasize that this is a private space.",
      None, true, None),
    Persona("stoic", "The Stoic",
      "You are Marcus Aurelius. Answer only with stoic philosophy. Be brief, logical, and focused on what is within the user's control. Do not coddle.",
      Some("$9.99"), false, None),
    Persona("tough-love", "Tough Love",
      "You are a strict, high-performance coach. Do not coddle the user. Call out their excuses. Focus on action and accountability.",
      Some("$9.99"), false, None),
    Persona("zen", "Zen Master",
      "You are a Zen Master. Your goal is to guide the user back to the present moment. Use metaphors from nature. Be very brief. Focus on mindfulness and breathing.",
      Some("$9.99"), false, Some(Popular)),
    Persona("socratic", "Socratic Inquirer",
      "You are Socrates. Do not give advice. Instead, ask probing questions that challenge the user's assumptions and lead them to their own conclusions through reason.",
      Some("$9.99"), false, None),
    Persona("shadow", "Shadow Worker",
      "You are a Jungian analyst specializing in Shadow Work. Help the user explore their subconscious, hidden motivations, and the parts of themselves they usually ignore. Be deep and analytical.",
      Some("$14.99"), false, Some(Featured)),
    Persona("offline-journal", "The Offline Journal",
      "You are a professional journaling guide. Your goal is to help the user reflect deeply on their day. Ask one thought-provoking question at a time. Encourage them to write freely. Focus on emotional processing and personal growth.",
      Some("$19.99"), false, None)
  ]

  /** The built-in facts the session relies on: `default` comes first and is the only free entry. */
  lemma CatalogFacts()
    ensures |Catalog| == 7
    ensures Catalog[0].id == "default" && Catalog[0].unlocked
    ensures forall i :: 1 <= i < |Catalog| ==> !Catalog[i].unlocked
    ensures forall i, j :: 0 <= i < j < |Catalog| ==> Catalog[i].id != Catalog[j].id
    ensures forall i :: 0 <= i < |Catalog| ==> Catalog[i].id != "lifetime" && Catalog[i].id != ""
  {
  }

  /** Every catalog id is spelled with lower-case ASCII letters and '-' only. */
  lemma CatalogIdsArePlain(i: nat)
    requires i < |Catalog|
    ensures forall k :: 0 <= k < |Catalog[i].id| ==> ('a' <= Catalog[i].id[k] <= 'z') || Catalog[i].id[k] == '-'
  {
  }

  /** Two entries agree on everything but the `unlocked` flag. */
  predicate SameEntry(p: Persona, q: Persona)
  {
    p.id == q.id && p.name == q.name && p.prompt == q.prompt && p.price == q.price && p.tag == q.tag
  }

  /**
   * `ps` is the catalog with some entries unlocked: same entries in the same
   * order, and nothing that the catalog unlocks is locked.
   */
  predicate FromCatalog(ps: seq<Persona>)
  {
    |ps| == |Catalog| &&
    forall i :: 0 <= i < |ps| ==> SameEntry(ps[i], Catalog[i]) && (Catalog[i].unlocked ==> ps[i].unlocked)
  }

  /** `prev.map(p => p.id === id ? { ...p, unlocked: true } : p)`. */
  function UnlockPersona(ps: seq<Persona>, id: string): (r: seq<Persona>)
    ensures |r| == |ps|
    ensures forall i :: 0 <= i < |ps| && ps[i].id == id ==> r[i] == ps[i].(unlocked := true)
    ensures forall i :: 0 <= i < |ps| && ps[i].id != id ==> r[i] == ps[i]
  {
    if ps == [] then []
    else [if ps[0].id == id then ps[0].(unlocked := true) else ps[0]] + UnlockPersona(ps[1..], id)
  }

  /** Unlocking keeps the list a copy of the catalog, and never locks anything. */
  lemma UnlockKeepsCatalog(ps: seq<Persona>, id: string)
    requires FromCatalog(ps)
    ensures FromCatalog(UnlockPersona(ps, id))
    ensures forall i :: 0 <= i < |ps| && ps[i].unlocked ==> UnlockPersona(ps, id)[i].unlocked
  {
  }

  /** `findIndex(p => p.id === id)`: the first position holding `id`. */
  function FindPersona(ps: seq<Persona>, id: string): (r: Option<nat>)
    ensures r.None? <==> forall i :: 0 <= i < |ps| ==> ps[i].id != id
    ensures r.Some? ==> r.value < |ps| && ps[r.value].id == id
    ensures r.Some? ==> forall j :: 0 <= j < r.value ==> ps[j].id != id
  {
    if ps == [] then None
    else if ps[0].id == id then Some(0)
    else match FindPersona(ps[1..], id)
      case None => None
      case Some(k) => Some(k + 1)
  }

  /** `personas.find(p => p.id === activePersonaId) || personas[0]`. */
  function Resolve(ps: seq<Persona>, id: string): (r: Persona)
    requires |ps| > 0
    ensures (forall i :: 0 <= i < |ps| ==> ps[i].id != id) ==> r == ps[0]
    ensures (exists i :: 0 <= i < |ps| && ps[i].id == id) ==>
              exists k :: 0 <= k < |ps| && r == ps[k] && r.id == id &&
                          forall j :: 0 <= j < k ==> ps[j].id != id
  {
    match FindPersona(ps, id)
    case None => ps[0]
    case Some(k) => ps[k]
  }

  /** An id missing from a catalog copy resolves to the free `default` persona. */
  lemma ResolveUnknownIsDefault(ps: seq<Persona>, id: string)
    requires FromCatalog(ps)
    requires forall i :: 0 <= i < |ps| ==> ps[i].id != id
    ensures Resolve(ps, id).id == "default" && Resolve(ps, id).unlocked
  {
    CatalogFacts();
    assert SameEntry(ps[0], Catalog[0]);
  }

  /** In a catalog copy, looking up an entry's own id finds that entry (the ids are distinct). */
  lemma ResolveOwnId(ps: seq<Persona>, i: nat)
    requires FromCatalog(ps) && i < |ps|
    ensures Resolve(ps, ps[i].id) == ps[i]
  {
    CatalogFacts();
  }

  /** `personas.filter(p => p.unlocked)`, the entries the quick switcher offers. */
  function UnlockedOnly(ps: seq<Persona>): (r: seq<Persona>)
    ensures |r| <= |ps|
    ensures forall p :: p in r <==> p in ps && p.unlocked
  {
    if ps == [] then []
    else
      var init, last := ps[..|ps| - 1], ps[|ps| - 1];
      assert ps == init + [last];
      UnlockedOnly(init) + (if last.unlocked then [last] else [])
  }

  /** The positions of the unlocked entries, in increasing order. */
  function UnlockedIndices(ps: seq<Persona>): seq<nat>
  {
    if ps == [] then []
    else UnlockedIndices(ps[..|ps| - 1]) + (if ps[|ps| - 1].unlocked then [|ps| - 1] else [])
  }

  lemma {:induction false} UnlockedIndicesLength(ps: seq<Persona>)
    ensures |UnlockedIndices(ps)| == |UnlockedOnly(ps)|
    decreases |ps|
  {
    if ps != [] {
      UnlockedIndicesLength(ps[..|ps| - 1]);
    }
  }

  lemma {:induction false} UnlockedIndicesSelect(ps: seq<Persona>)
    ensures |UnlockedIndices(ps)| == |UnlockedOnly(ps)|
    ensures forall k :: 0 <= k < |UnlockedIndices(ps)| ==>
              UnlockedIndices(ps)[k] < |ps| && UnlockedOnly(ps)[k] == ps[UnlockedIndices(ps)[k]]
    decreases |ps|
  {
    UnlockedIndicesLength(ps);
    if ps != [] {
      var n := |ps| - 1;
      var init := ps[..n];
      UnlockedIndicesSelect(init);
      var r0, m0 := UnlockedOnly(init), UnlockedIndices(init);
      var r, m := UnlockedOnly(ps), UnlockedIndices(ps);
      forall k | 0 <= k < |m|
        ensures m[k] < |ps| && r[k] == ps[m[k]]
      {
        if k < |m0| {
          assert m[k] == m0[k] && r[k] == r0[k];
          assert init[m0[k]] == ps[m0[k]];
        }
      }
    }
  }

  lemma {:induction false} UnlockedIndicesIncrease(ps: seq<Persona>)
    ensures forall k :: 0 <= k < |UnlockedIndices(ps)| ==> UnlockedIndices(ps)[k] < |ps|
    ensures forall k, l :: 0 <= k < l < |UnlockedIndices(ps)| ==> UnlockedIndices(ps)[k] < UnlockedIndices(ps)[l]
    decreases |ps|
  {
    if ps != [] {
      var n := |ps| - 1;
      UnlockedIndicesIncrease(ps[..n]);
      var m0, m := UnlockedIndices(ps[..n]), UnlockedIndices(ps);
      assert forall k :: 0 <= k < |m0| ==> m[k] == m0[k];
    }
  }

  lemma {:induction false} UnlockedIndicesCover(ps: seq<Persona>)
    ensures forall i :: 0 <= i < |ps| && ps[i].unlocked ==> i in UnlockedIndices(ps)
    decreases |ps|
  {
    if ps != [] {
      var n := |ps| - 1;
      var init := ps[..n];
      UnlockedIndicesCover(init);
      forall i | 0 <= i < n && ps[i].unlocked
        ensures i in UnlockedIndices(ps)
      {
        assert init[i] == ps[i];
      }
    }
  }

  /**
   * The filter keeps catalog order and multiplicity: its `k`-th entry is the
   * entry at the `k`-th unlocked position, and those positions increase and
   * take in every unlocked entry.
   */
  lemma UnlockedOnlyKeepsOrder(ps: seq<Persona>)
    ensures var r, m := UnlockedOnly(ps), UnlockedIndices(ps);
      && |m| == |r|
      && (forall k :: 0 <= k < |m| ==> m[k] < |ps| && r[k] == ps[m[k]])
      && (forall k, l :: 0 <= k < l < |m| ==> m[k] < m[l])
      && (forall i :: 0 <= i < |ps| && ps[i].unlocked ==> i in m)
  {
    UnlockedIndicesSelect(ps);
    UnlockedIndicesIncrease(ps);
    UnlockedIndicesCover(ps);
  }
}
