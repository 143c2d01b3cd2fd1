/**
 * The top-level client state (`App`): which view is shown, the lifetime
 * flag, the persona list with its unlock flags, the active persona id, the
 * journal entries the client holds, and the query string of the page
 * location, which carries the one-shot payment-success marker.
 * Network calls are inputs: `Delivered` when `fetch` resolved (whatever
 * the HTTP status), `Threw` when it rejected.
 */
module Session {
  import opened Wrappers
  import opened Personas
  import Query
  import JournalStore
  import Checkout

  datatype Step = Onboarding | ChatView | SettingsView | JournalView

  /** A journal entry as the client holds it; timestamps in milliseconds. */
  datatype JournalEntry = JournalEntry(id: string, text: string, timestamp: int, summary: Option<string>)

  /** How a `fetch` settled. */
  datatype Transport = Delivered | Threw

  /** How the journal load on mount settled: a 2xx with rows, another status, or a throw. */
  datatype JournalFetch = Fetched(rows: seq<JournalStore.Row>) | NotOk | FetchThrew

  const SummaryStub: string := "User expressed thoughts on current situation. Patterns suggest a need for reflection."
  const UserEmail: string := "lisa@intentionaltravelwithlisa.com"

  /**
   * The view graph: consent leads from onboarding to chat, chat opens
   * settings and the journal, both close back to chat, and only the reset in
   * settings returns to onboarding.
   */
  predicate ViewEdge(from: Step, to: Step)
  {
    || from == to
    || (from == Onboarding && to == ChatView)
    || (from == ChatView && (to == SettingsView || to == JournalView))
    || ((from == SettingsView || from == JournalView) && to == ChatView)
    || (from == SettingsView && to == Onboarding)
  }

  /** `{ ...entry, timestamp: new Date(entry.timestamp) }`: a NULL timestamp becomes the epoch. */
  function ToEntry(row: JournalStore.Row): (e: JournalEntry)
    ensures e.id == row.id && e.text == row.text && e.summary == row.summary
    ensures row.timestamp.Some? ==> e.timestamp == row.timestamp.value
    ensures row.timestamp.None? ==> e.timestamp == 0
  {
    JournalEntry(row.id, row.text, if row.timestamp.Some? then row.timestamp.value else 0, row.summary)
  }

  function ToEntries(rows: seq<JournalStore.Row>): (es: seq<JournalEntry>)
    ensures |es| == |rows|
    ensures forall i :: 0 <= i < |rows| ==> es[i] == ToEntry(rows[i])
  {
    if rows == [] then [] else [ToEntry(rows[0])] + ToEntries(rows[1..])
  }

  /** The body `handleUnlock` posts to the checkout route. */
  function UnlockRequest(): (b: Checkout.CheckoutBody)
    ensures Checkout.IsLifetime(b.personaId) && b.email == Some(UserEmail)
  {
    Checkout.CheckoutBody(None, Some(UserEmail), Some("lifetime"))
  }

  /** The body `handleBuyPersona(id)` posts to the checkout route. */
  function BuyPersonaRequest(id: string): (b: Checkout.CheckoutBody)
    ensures b.personaId == Some(id) && b.email == Some(UserEmail) && b.priceId == None
  {
    Checkout.CheckoutBody(None, Some(UserEmail), Some(id))
  }

  /** The success marker and the persona id a location query carries. */
  function RedirectMarker(search: string): (Option<string>, Option<string>)
  {
    var params := Query.ParseSearch(search);
    (Query.Get(params, "success"), Query.Get(params, "personaId"))
  }

  class App {
    var step: Step
    var unlocked: bool
    var personas: seq<Persona>
    var activePersonaId: string
    var journalEntries: seq<JournalEntry>
    /** `window.location.search`. */
    var search: string

    ghost predicate Valid()
      reads this
    {
      FromCatalog(personas)
    }

    /** First render, at a page whose query string is `search`. */
    constructor (search: string)
      ensures Valid()
      ensures step == Onboarding && !unlocked && personas == Catalog && activePersonaId == "default"
      ensures journalEntries == [] && this.search == search
    {
      step := Onboarding;
      unlocked := false;
      personas := Catalog;
      activePersonaId := "default";
      journalEntries := [];
      this.search := search;
    }

    /** `personas.find(p => p.id === activePersonaId) || personas[0]`. */
    function ActivePersona(): (p: Persona)
      reads this
      requires Valid()
      ensures p in personas
    {
      Resolve(personas, activePersonaId)
    }

    /** The journal load on mount: only a 2xx reply replaces the entries. */
    method OnJournalFetched(result: JournalFetch)
      modifies this`journalEntries
      ensures result.Fetched? ==> journalEntries == ToEntries(result.rows)
      ensures !result.Fetched? ==> journalEntries == old(journalEntries)
    {
      if result.Fetched? {
        journalEntries := ToEntries(result.rows);
      }
    }

    /**
     * The payment-redirect effect. Without `success=true` nothing changes.
     * With it: `personaId=lifetime` turns the lifetime flag on; any other
     * non-empty id unlocks the entries with that id and becomes active;
     * then the query is cleared and the chat view shown.
     */
    method HandleRedirect()
      requires Valid()
      modifies this`unlocked, this`personas, this`activePersonaId, this`search, this`step
      ensures Valid()
      ensures ViewEdge(old(step), step)
      ensures RedirectMarker(old(search)).0 != Some("true") ==>
                && unlocked == old(unlocked) && personas == old(personas)
                && activePersonaId == old(activePersonaId) && search == old(search) && step == old(step)
      ensures RedirectMarker(old(search)).0 == Some("true") ==>
                && step == ChatView && search == ""
                && (RedirectMarker(old(search)).1 == Some("lifetime") ==>
                      unlocked && personas == old(personas) && activePersonaId == old(activePersonaId))
                && (RedirectMarker(old(search)).1 != Some("lifetime") ==> unlocked == old(unlocked))
                && (Checkout.Truthy(RedirectMarker(old(search)).1) && RedirectMarker(old(search)).1 != Some("lifetime") ==>
                      && personas == UnlockPersona(old(personas), RedirectMarker(old(search)).1.value)
                      && activePersonaId == RedirectMarker(old(search)).1.value)
                && (!Checkout.Truthy(RedirectMarker(old(search)).1) ==>
                      personas == old(personas) && activePersonaId == old(activePersonaId))
      ensures RedirectMarker(search).0 != Some("true")
    {
      var params := Query.ParseSearch(search);
      if Query.Get(params, "success") == Some("true") {
        var personaId := Query.Get(params, "personaId");
        if personaId == Some("lifetime") {
          unlocked := true;
        } else if personaId.Some? && personaId.value != "" {
          UnlockKeepsCatalog(personas, personaId.value);
          personas := UnlockPersona(personas, personaId.value);
          activePersonaId := personaId.value;
        }
        search := "";
        step := ChatView;
      }
      assert RedirectMarker("").0 == None;
    }

    /** "Open My Vault": leaves onboarding only once the terms are accepted. */
    method Start(agreed: bool)
      requires step == Onboarding
      modifies this`step
      ensures ViewEdge(old(step), step)
      ensures agreed ==> step == ChatView
      ensures !agreed ==> step == Onboarding
    {
      if agreed {
        step := ChatView;
      }
    }

    method OpenSettings()
      requires step == ChatView
      modifies this`step
      ensures ViewEdge(old(step), step) && step == SettingsView
    {
      step := SettingsView;
    }

    method OpenJournal()
      requires step == ChatView
      modifies this`step
      ensures ViewEdge(old(step), step) && step == JournalView
    {
      step := JournalView;
    }

    method CloseSettings()
      requires step == SettingsView
      modifies this`step
      ensures ViewEdge(old(step), step) && step == ChatView
    {
      step := ChatView;
    }

    method CloseJournal()
      requires step == JournalView
      modifies this`step
      ensures ViewEdge(old(step), step) && step == ChatView
    {
      step := ChatView;
    }

    /**
     * A click on persona card `i` in settings: an unlocked persona becomes
     * active and the chat view returns; a locked card does nothing.
     */
    method SelectInSettings(i: nat)
      requires Valid() && step == SettingsView && i < |personas|
      modifies this`activePersonaId, this`step
      ensures Valid() && ViewEdge(old(step), step)
      ensures personas[i].unlocked ==>
                activePersonaId == personas[i].id && step == ChatView && ActivePersona() == personas[i]
      ensures !personas[i].unlocked ==> activePersonaId == old(activePersonaId) && step == old(step)
    {
      if personas[i].unlocked {
        activePersonaId := personas[i].id;
        step := ChatView;
        ResolveOwnId(personas, i);
      }
    }

    /** A click on entry `j` of the quick switcher, which lists the unlocked personas only. */
    method QuickSwitch(j: nat)
      requires Valid() && step == ChatView && j < |UnlockedOnly(personas)|
      modifies this`activePersonaId
      ensures Valid()
      ensures activePersonaId == UnlockedOnly(personas)[j].id
      ensures ActivePersona() == UnlockedOnly(personas)[j] && ActivePersona().unlocked
    {
      var choice := UnlockedOnly(personas)[j];
      assert choice in UnlockedOnly(personas);
      var i :| 0 <= i < |personas| && personas[i] == choice;
      activePersonaId := choice.id;
      ResolveOwnId(personas, i);
    }

    /**
     * "Incinerate Data". Declined, or the DELETE request threw: nothing
     * changes. Otherwise everything returns to the first-render state.
     */
    method Incinerate(confirmed: bool, outcome: Transport)
      requires Valid() && step == SettingsView
      modifies this`journalEntries, this`unlocked, this`personas, this`activePersonaId, this`step
      ensures Valid() && ViewEdge(old(step), step)
      ensures !confirmed || outcome == Threw ==>
                && journalEntries == old(journalEntries) && unlocked == old(unlocked)
                && personas == old(personas) && activePersonaId == old(activePersonaId) && step == old(step)
      ensures confirmed && outcome == Delivered ==>
                && journalEntries == [] && !unlocked && personas == Catalog
                && activePersonaId == "default" && step == Onboarding
    {
      if confirmed {
        if outcome == Delivered {
          journalEntries := [];
          unlocked := false;
          personas := Catalog;
          activePersonaId := "default";
          step := Onboarding;
        }
      }
    }

    /**
     * `handleSaveEntry(text)` with the generated id `id` at time `now`.
     * Returns the body it posts; the entry is put in front of the list
     * unless the request threw.
     */
    method SaveEntry(text: string, id: string, now: int, outcome: Transport)
      returns (posted: JournalStore.InsertRequest)
      modifies this`journalEntries
      ensures posted == JournalStore.InsertRequest(id, Some(text), Some(now), Some(SummaryStub))
      ensures outcome == Delivered ==>
                journalEntries == [JournalEntry(id, text, now, Some(SummaryStub))] + old(journalEntries)
      ensures outcome == Threw ==> journalEntries == old(journalEntries)
    {
      var entry := JournalEntry(id, text, now, Some(SummaryStub));
      posted := JournalStore.InsertRequest(id, Some(text), Some(now), Some(SummaryStub));
      if outcome == Delivered {
        journalEntries := [entry] + journalEntries;
      }
    }
  }
}
