/** EIP-712 signatures, abstractly: recovering the signed message gives the signer's
    address; recovering any other message gives an address nobody holds the key of, and
    one that depends on both messages; a malformed signature does not recover. */
module Signing {
  import opened Common
  import opened Hashing

  datatype Address = Of(key: nat) | Stray(key: nat, signed: Term, asked: Term)

  datatype Signature = Unsigned | Garbled(text: string) | Signed(key: nat, message: Term)

  /** A typed message: its domain, primary type, chain and payload. */
  function Typed(domain: string, primary: string, chainId: int, payload: Term): Term {
    Cons(Str(domain), Cons(Str(primary), Cons(Num(chainId), payload)))
  }

  function Sign(key: nat, message: Term): Signature { Signed(key, message) }

  function Recover(message: Term, sig: Signature): Option<Address> {
    match sig
    case Signed(k, m) => Some(if m == message then Of(k) else Stray(k, m, message))
    case _ => None
  }

  /** A signature recovers to the same address for two messages only if they are one message. */
  lemma RecoverPinsMessage(m: Term, n: Term, sig: Signature)
    requires Recover(m, sig).Some? && Recover(m, sig) == Recover(n, sig)
    ensures m == n
  {
  }

  /** The text of an address, as JSON. */
  function AddressText(a: Address): Term {
    match a
    case Of(k) => Cons(Num(0), Num(k))
    case Stray(k, s, m) => Cons(Num(1), Cons(Num(k), Cons(s, m)))
  }

  /** A node's permanent identifier: the digest of the address of its long-lived key. */
  function NodeIdOf(a: Address): Term { Digest(AddressText(a)) }
}
