/**
 * The admin lead list (frontend/app/api/admin/leads/route.ts): for a signed-in administrator,
 * every stored lead, newest first, with its identifier as text.
 */
module AdminLeads {
  import opened Wrappers
  import opened Collections
  import Http
  import opened LeadIntake

  /** A lead as the list returns it: `{ ...lead, _id: lead._id.toString() }`. */
  datatype Listed = Listed(id: string, doc: LeadDoc)

  datatype Listing = Listing(leads: seq<Listed>, total: nat)

  function SubmittedAt(l: Lead): int {
    l.doc.submittedAt
  }

  function Format(l: Lead): (r: Listed)
    ensures r.id == l.id.hex && r.doc == l.doc
  {
    Listed(l.id.hex, l.doc)
  }

  function FormatAll(ls: seq<Lead>): (r: seq<Listed>)
    ensures |r| == |ls| && forall i :: 0 <= i < |ls| ==> r[i] == Format(ls[i])
  {
    seq(|ls|, i requires 0 <= i < |ls| => Format(ls[i]))
  }

  /** `find({}).sort({ submittedAt: -1 })`. */
  function Newest(stored: seq<Lead>): (r: seq<Lead>)
    ensures SortedDesc(r, SubmittedAt)
    ensures multiset(r) == multiset(stored)
  {
    SortDesc(stored, SubmittedAt)
  }

  /** `GET`: 401 without a signed-in user; otherwise every lead, newest first, and their number. */
  function Get(session: Http.ServerSession, stored: seq<Lead>): (r: Http.Reply<Listing>)
    ensures r.Failure? <==> session.NoSession? || session.user.None?
    ensures r.Failure? ==> r == Http.Failure(Http.UNAUTHORIZED, "Unauthorized")
    ensures r.Success? ==> r.status == Http.OK && r.body.total == |r.body.leads| == |stored|
    ensures r.Success? ==> r.body.leads == FormatAll(Newest(stored))
    ensures r.Success? ==> forall i, j :: 0 <= i < j < |r.body.leads| ==>
      r.body.leads[i].doc.submittedAt >= r.body.leads[j].doc.submittedAt
  {
    if session.NoSession? || session.user.None? then Http.Failure(Http.UNAUTHORIZED, "Unauthorized")
    else
      var listed := FormatAll(Newest(stored));
      assert |Newest(stored)| == |stored| by {
        assert |multiset(Newest(stored))| == |multiset(stored)|;
      }
      Http.Success(Http.OK, Listing(listed, |listed|))
  }

  /** The list holds the stored leads and nothing else, as many as there are. */
  lemma ListsEveryLead(session: Http.ServerSession, stored: seq<Lead>, l: Lead)
    requires Get(session, stored).Success?
    ensures l in stored ==> Format(l) in Get(session, stored).body.leads
    ensures Format(l) in Get(session, stored).body.leads ==> l in stored
  {
    var sorted := Newest(stored);
    var listed := FormatAll(sorted);
    assert listed == Get(session, stored).body.leads;
    if l in stored {
      assert l in multiset(sorted);
      var i := Position(sorted, l);
      assert listed[i] == Format(l);
    }
    if Format(l) in listed {
      var i := Position(listed, Format(l));
      assert sorted[i] == l;
      assert l in multiset(sorted);
    }
  }

  /** When the store holds a lead, the first one listed is at least as recent as every stored lead. */
  lemma NewestFirst(session: Http.ServerSession, stored: seq<Lead>, l: Lead)
    requires Get(session, stored).Success? && l in stored
    ensures Get(session, stored).body.leads != []
    ensures Get(session, stored).body.leads[0].doc.submittedAt >= l.doc.submittedAt
  {
    var sorted := Newest(stored);
    assert l in multiset(sorted);
    assert l in sorted;
    var i := Position(sorted, l);
    if i > 0 {
      assert SubmittedAt(sorted[0]) >= SubmittedAt(sorted[i]);
    }
  }
}
