/**
 * PaymentsRepository as its tests describe it: a table from payment
 * identifier to payment record, where adding overwrites and a missing
 * identifier reads as empty. The store is threaded through the operations
 * as a value.
 */
module Repository {
  import opened Wrappers
  import opened Model

  type Store = map<PaymentId, PaymentResponse>

  const EmptyStore: Store := map[]

  /** add: the record is kept under its own identifier, replacing any earlier one; other identifiers keep theirs. */
  function Add(store: Store, payment: PaymentResponse): (s: Store)
    ensures s.Keys == store.Keys + {payment.id}
    ensures s[payment.id] == payment
    ensures forall id :: id in store && id != payment.id ==> s[id] == store[id]
  {
    store[payment.id := payment]
  }

  /** get: the record kept under the identifier, or empty when there is none. */
  function Get(store: Store, id: PaymentId): (r: Option<PaymentResponse>)
    ensures r.None? <==> id !in store
    ensures r.Some? ==> r.value == store[id] && r.value in store.Values
  {
    if id in store then Some(store[id]) else None
  }

  /** Reading back after an add: the new record under its identifier, the old answer under every other one. */
  lemma GetAfterAdd(store: Store, payment: PaymentResponse, id: PaymentId)
    ensures Get(Add(store, payment), id) == if id == payment.id then Some(payment) else Get(store, id)
  {
  }

  /** A second add under the same identifier wins: the first record is gone. */
  lemma AddOverwrites(store: Store, first: PaymentResponse, second: PaymentResponse)
    requires first.id == second.id
    ensures Add(Add(store, first), second) == Add(store, second)
  {
  }

  /** Nothing is found in a store nothing was added to. */
  lemma GetFromEmpty(id: PaymentId)
    ensures Get(EmptyStore, id).None?
  {
  }
}
