/** The ledger: the tables of all runs in one store, written one transaction at a time. */
module Ledgers {
  import opened Contracts
  import opened Transactions

  class Ledger {
    var runs: map<RunId, Run>
    var resources: map<Resource, ActionId>
    var received: map<(RunId, EventId), Event>
    var journal: seq<Entry>

    /** The committed contents of the store. */
    function Contents(): Tables
      reads this
    {
      Tables(runs, resources, received, journal)
    }

    constructor ()
      ensures Contents() == Tables(map[], map[], map[], [])
    {
      runs, resources, received, journal := map[], map[], map[], [];
    }

    /** Registers a new run; an id that is taken violates the primary key. */
    method Create(r: RunId, run: Run) returns (created: bool)
      modifies this
      ensures created <==> r !in old(runs)
      ensures Contents() == if created then Write(old(Contents()), r, run, RunCreated(r)) else old(Contents())
    {
      created := r !in runs;
      if created {
        runs := runs[r := run];
        Log(RunCreated(r));
      }
    }

    method Log(entry: Entry)
      modifies this`journal
      ensures journal == old(journal) + [entry]
    {
      journal := journal + [entry];
    }

    /** The state that a transaction on this run starts from. */
    method Read(r: RunId) returns (state: Outcome<Run>)
      ensures state == if r in runs then Committed(runs[r]) else Raised(UnknownRun)
    {
      state := if r in runs then Committed(runs[r]) else Raised(UnknownRun);
    }

    /** The end of a transaction body: everything it wrote becomes visible at once. A body that
        raises never gets here, so nothing it did to its copies is seen. */
    method Commit(r: RunId, state: Run, rows: map<Resource, ActionId>, seen: map<(RunId, EventId), Event>,
        log: seq<Entry>)
      modifies this
      ensures Contents() == Tables(old(runs)[r := state], rows, seen, old(journal) + log)
    {
      runs, resources, received, journal := runs[r := state], rows, seen, journal + log;
    }

    /** A commit that only rewrites the run and journals one entry. */
    method Save(r: RunId, state: Run, entry: Entry)
      modifies this
      ensures Contents() == Write(old(Contents()), r, state, entry)
    {
      Commit(r, state, resources, received, [entry]);
    }
  }
}
