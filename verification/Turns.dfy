/** A program seen as the sequence of its accesses to the store and the runtime. */
module Turns {
  import opened Idempotence
  import opened Runs
  import opened Worlds

  datatype Turn = Reading | Asking(question: Question) | Calling(call: Call)

  ghost predicate AllReceipts(turns: seq<Turn>) {
    forall i | 0 <= i < |turns| :: turns[i].Calling? ==> HasReceipt(turns[i].call)
  }

  ghost function Perform(w: World, schedule: Schedule, x: Turn): World
    requires x.Calling? ==> HasReceipt(x.call)
  {
    match x
    case Reading => Serve(w, schedule)
    case Asking(question) => AskRuntime(w, schedule, question).0
    case Calling(call) => Transact(w, schedule, call).0
  }

  ghost function RunTurns(w: World, schedule: Schedule, turns: seq<Turn>): World
    requires AllReceipts(turns)
    decreases |turns|
  {
    if turns == [] then w else RunTurns(Perform(w, schedule, turns[0]), schedule, turns[1..])
  }

  lemma TurnAlone(w: World, schedule: Schedule, x: Turn)
    requires x.Calling? ==> HasReceipt(x.call)
    ensures AllReceipts([x]) && RunTurns(w, schedule, [x]) == Perform(w, schedule, x)
  {
    hide Perform;
    assert [x][1..] == [];
  }

  lemma TurnLeads(w: World, schedule: Schedule, x: Turn)
    requires x.Calling? ==> HasReceipt(x.call)
    ensures Leads(w, Serve(w, schedule)) && Leads(w, Perform(w, schedule, x))
    ensures Perform(w, schedule, x).legal ==> Serve(w, schedule).legal
  {
    hide Leads, Transact, Serve;
    ServeLeads(w, schedule);
    match x
    case Reading =>
    case Asking(question) =>
      AskLeads(w, schedule, question);
      AskedLegal(w, schedule, question);
    case Calling(c) =>
      TransactLeads(w, schedule, c);
      ServedLegal(w, schedule, c);
  }

  lemma AskedLegal(w: World, schedule: Schedule, question: Question)
    ensures AskRuntime(w, schedule, question).0.legal ==> Serve(w, schedule).legal
  {
  }

  lemma ServedLegal(w: World, schedule: Schedule, c: Call)
    requires HasReceipt(c)
    ensures Transact(w, schedule, c).0.legal ==> Serve(w, schedule).legal
  {
    hide Answer, Proper, FreshIds;
  }

  lemma {:induction false} TurnsLead(w: World, schedule: Schedule, turns: seq<Turn>)
    requires AllReceipts(turns)
    ensures Leads(w, RunTurns(w, schedule, turns))
    decreases |turns|
  {
    hide Leads, Perform;
    Stays(w);
    if turns != [] {
      TurnLeads(w, schedule, turns[0]);
      TurnsLead(Perform(w, schedule, turns[0]), schedule, turns[1..]);
      LeadsOn(w, Perform(w, schedule, turns[0]), RunTurns(w, schedule, turns));
    }
  }
}
