/** The DNS socket of the embedded stack: a table of query slots. A slot is freed by reading a
    final result or by cancelling it, may then be reused, and must not be touched while free. */
module Resolver {
  import opened Wrappers
  import opened Net

  datatype QueryKind = A | Aaaa

  datatype Question = Question(name: seq<u8>, kind: QueryKind)

  datatype QueryResult = Pending | Unresolved | Resolved(addresses: seq<IpAddr>)

  /** A final result that names no address. */
  predicate WithoutAddress(r: QueryResult) {
    r.Unresolved? || (r.Resolved? && r.addresses == [])
  }

  class DnsSocket {
    var slots: map<nat, Question>
    ghost var answers: set<(Question, IpAddr)>  // every answer ever given
    ghost var pending: set<nat>                 // slots found pending in the current round
    ghost var refused: set<Question>            // every question it would not take on
    ghost var barren: set<Question>             // every question finally answered without an address
    ghost var readings: nat                     // how often a result has been asked for
    ghost var lastRead: nat                     // the slot asked about last
    ghost var lastResult: QueryResult           // and what was said

    constructor ()
      ensures slots == map[] && answers == {} && pending == {} && refused == {} && barren == {}
    {
      slots, answers, pending, refused, barren := map[], {}, {}, {}, {};
      readings, lastRead, lastResult := 0, 0, Pending;
    }

    ghost method BeginRound()
      modifies `pending
      ensures pending == {}
    {
      pending := {};
    }

    method StartQuery(name: seq<u8>, kind: QueryKind) returns (r: Option<nat>)
      modifies `slots, `refused
      ensures refused == old(refused) + if r.None? then {Question(name, kind)} else {}
      ensures r.None? ==> slots == old(slots)
      ensures r.Some? ==> r.value !in old(slots) && slots == old(slots)[r.value := Question(name, kind)]
    {
      var refuses: bool := *;
      if refuses {
        refused := refused + {Question(name, kind)};
        return None;
      }
      var q := FreeSlot(slots.Keys);
      slots := slots[q := Question(name, kind)];
      r := Some(q);
    }

    method GetQueryResult(q: nat) returns (r: QueryResult)
      requires q in slots
      modifies this
      ensures r.Pending? ==> slots == old(slots) && pending == old(pending) + {q}
      ensures !r.Pending? ==> slots == old(slots) - {q} && pending == old(pending) - {q}
      ensures r.Resolved? ==> forall ip | ip in r.addresses :: (old(slots)[q], ip) in answers
      ensures old(answers) <= answers && (!r.Resolved? ==> answers == old(answers))
      ensures barren == old(barren) + if WithoutAddress(r) then {old(slots)[q]} else {}
      ensures refused == old(refused) && readings == old(readings) + 1 && lastRead == q && lastResult == r
    {
      r := *;
      readings, lastRead, lastResult := readings + 1, q, r;
      if WithoutAddress(r) {
        barren := barren + {slots[q]};
      }
      if r.Pending? {
        pending := pending + {q};
        return;
      }
      if r.Resolved? {
        answers := answers + set ip | ip in r.addresses :: (slots[q], ip);
      }
      slots, pending := slots - {q}, pending - {q};
    }

    method CancelQuery(q: nat)
      requires q in slots
      modifies `slots, `pending
      ensures slots == old(slots) - {q} && pending == old(pending) - {q}
    {
      slots, pending := slots - {q}, pending - {q};
    }
  }

  /** Some number not in the set: a free place in a table. */
  method FreeSlot(used: set<nat>) returns (n: nat)
    ensures n !in used
  {
    n := *;
    ghost var left := set m | m in used && m >= n;
    while n in used
      invariant left == set m | m in used && m >= n
      decreases left
    {
      assert n in left;
      n := n + 1;
      ghost var rest := set m | m in used && m >= n;
      assert rest <= left && n - 1 !in rest;
      left := rest;
    }
  }
}
