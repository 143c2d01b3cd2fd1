/**
 * Properties that span the client and the server: the success URL the
 * server builds is read back by the client's redirect handler, the client's
 * checkout bodies meet the server's price rule, and end-to-end sequences of
 * calls whose outcome the contracts of the other modules determine.
 */
module Scenarios {
  import opened Wrappers
  import Text
  import Query
  import Personas
  import Checkout
  import JournalStore
  import Chat
  import Session

  lemma SuccessUrlSplits(origin: string, id: string)
    ensures Checkout.SuccessUrl(origin, Some(id)) == origin + "?" + ("success=true&personaId=" + id)
    ensures "?" + ("success=true&personaId=" + id) == "?success=true&personaId=" + id
  {
  }

  lemma NoFragmentInQuery(id: string)
    requires '#' !in id
    ensures '#' !in "success=true&personaId=" + id
  {
    assert '#' !in "success=true&personaId=";
  }

  lemma QuerySpelledOut(id: string)
    ensures "?success=true&personaId=" + id == "?" + "success" + "=" + "true" + "&" + "personaId" + "=" + id
  {
  }

  /** The query of a success redirect parses to the marker and the id. */
  lemma SuccessQueryParses(id: string)
    requires Query.PlainValue(id)
    ensures Session.RedirectMarker("?success=true&personaId=" + id) == (Some("true"), Some(id))
  {
    QuerySpelledOut(id);
    Query.ParseTwoPairs("success", "true", "personaId", id);
    MarkerOfPairs("?success=true&personaId=" + id, id);
  }

  lemma MarkerOfPairs(search: string, id: string)
    requires Query.ParseSearch(search) == [("success", "true"), ("personaId", id)]
    ensures Session.RedirectMarker(search) == (Some("true"), Some(id))
  {
    var ps := Query.ParseSearch(search);
    assert "success"[0] != "personaId"[0];
    assert Query.Get(ps[1..], "personaId") == Some(id);
  }

  /**
   * For an origin without '?' or '#' and a persona id of URL-safe
   * characters, the page the provider returns to carries exactly the marker
   * and the id the redirect handler looks for.
   */
  lemma {:induction false} SuccessUrlRoundTrip(origin: string, id: string)
    requires '?' !in origin && '#' !in origin
    requires Query.PlainValue(id)
    ensures Query.Search(Checkout.SuccessUrl(origin, Some(id))) == "?success=true&personaId=" + id
    ensures Session.RedirectMarker(Query.Search(Checkout.SuccessUrl(origin, Some(id)))) == (Some("true"), Some(id))
  {
    SuccessUrlSplits(origin, id);
    Query.PlainExcludes(id);
    NoFragmentInQuery(id);
    Query.SearchOfQuery(origin, "success=true&personaId=" + id);
    SuccessQueryParses(id);
  }

  /**
   * The lifetime button is charged the higher price and every catalog
   * persona's buy button the flat price, whatever price the card shows.
   */
  lemma ClientRequestsMeetPriceRule(i: nat)
    requires i < |Personas.Catalog|
    ensures Checkout.UnitAmount(Session.UnlockRequest().personaId) == Checkout.LifetimeCents
    ensures Checkout.UnitAmount(Session.BuyPersonaRequest(Personas.Catalog[i].id).personaId) == Checkout.PersonaCents
  {
    Personas.CatalogFacts();
  }

  /** A message with a crisis keyword opens the overlay, keeps the input and sends nothing. */
  method CrisisMessageSendsNothing(text: string, personaName: string, personaPrompt: string, unlocked: bool)
    requires Text.Trim(text) != "" && Chat.RunSafetyCheck(text)
  {
    var chat := new Chat.ChatSession(personaName, 0);
    chat.SetInput(text);
    var request := chat.HandleSend(unlocked, personaPrompt, 1);
    assert request == None && chat.showCrisis;
    assert |chat.messages| == 1 && chat.input == text;
  }

  /** Consent opens the chat with the default persona, where a crisis message sends nothing. */
  method ConsentThenCrisisMessage(text: string)
    requires Text.Trim(text) != "" && Chat.RunSafetyCheck(text)
  {
    var app := new Session.App("");
    app.Start(true);
    assert app.step == Session.ChatView;
    var persona := app.ActivePersona();
    CrisisMessageSendsNothing(text, persona.name, persona.prompt, app.unlocked);
  }

  /** POST one entry, list it back alone, fail on its id again, delete everything, list nothing. */
  method JournalRoundTrip(id: string, text: string, timestamp: int)
  {
    var row := JournalStore.Row(id, text, Some(timestamp), None);
    var table := new JournalStore.Table();
    var reply := table.Insert(JournalStore.InsertRequest(id, Some(text), Some(timestamp), None));
    assert reply == JournalStore.Success;
    var listed := table.List();
    assert multiset(listed) == multiset{row};
    assert |listed| == 1 && listed[0] in multiset(listed);
    assert listed == [row];
    reply := table.Insert(JournalStore.InsertRequest(id, Some("again"), None, None));
    assert reply == JournalStore.ServerError(JournalStore.UniqueIdMessage);
    reply := table.DeleteAll();
    listed := table.List();
    assert listed == [];
  }

  /** Buying catalog persona `i` and returning: it is unlocked and active once; a second run changes nothing. */
  method RedirectAppliesOnce(i: nat)
    requires 1 <= i < |Personas.Catalog|
  {
    Personas.CatalogFacts();
    Personas.CatalogIdsArePlain(i);
    var id := Personas.Catalog[i].id;
    assert Query.PlainValue(id);
    SuccessQueryParses(id);
    var app := new Session.App("?success=true&personaId=" + id);
    app.HandleRedirect();
    assert app.activePersonaId == id && app.personas[i].unlocked && app.step == Session.ChatView;
    assert app.ActivePersona() == app.personas[i] by {
      Personas.ResolveOwnId(app.personas, i);
    }
    var before := (app.unlocked, app.personas, app.activePersonaId, app.step);
    app.HandleRedirect();
    assert (app.unlocked, app.personas, app.activePersonaId, app.step) == before;
  }
}
