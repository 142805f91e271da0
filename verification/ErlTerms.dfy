/** Erlang terms as erl_interface hands them out. */
module ErlTerms {
  import opened Texts

  type Int32 = i: int | -0x8000_0000 <= i < 0x8000_0000
  type UInt32 = u: int | 0 <= u < 0x1_0000_0000

  /** Lists are cons cells and may be improper. Other stands for pids, ports, references, funs and
      the 64-bit integers. */
  datatype Term =
    | Int(i: Int32)
    | UInt(u: UInt32)
    | Float(f: real)
    | Atom(name: Text)
    | Tuple(elems: seq<Term>)
    | Binary(bytes: Text)
    | Nil
    | Cons(hd: Term, tl: Term)
    | Other
  {
    predicate IsList() {
      Nil? || Cons?
    }
  }

  predicate Proper(t: Term) {
    t.Nil? || (t.Cons? && Proper(t.tl))
  }

  /** The elements of a list, without its tail. */
  function Heads(t: Term): seq<Term> {
    if t.Cons? then [t.hd] + Heads(t.tl) else []
  }

  /** erl_length: -1 for anything that is not a proper list. */
  function ErlLength(t: Term): (n: int)
    ensures -1 <= n
    ensures 0 <= n <==> Proper(t)
  {
    match t
    case Nil => 0
    case Cons(_, tl) => var n := ErlLength(tl); if n < 0 then -1 else n + 1
    case _ => -1
  }

  /** erl_mk_string: a list of character codes. */
  function MkString(s: Text): (t: Term)
    ensures Proper(t)
  {
    if s == [] then Nil else Cons(Int(s[0] as int), MkString(s[1..]))
  }

  predicate IsByte(t: Term) {
    t.Int? && 0 <= t.i < 256
  }

  /** erl_iolist_length(t) >= 0 for a list: bytes, binaries and nested iolists, with a binary allowed
      as the last tail. */
  predicate IsIodata(t: Term) {
    match t
    case Nil => true
    case Binary(_) => true
    case Cons(hd, tl) => (IsByte(hd) || IsIodata(hd)) && IsIodata(tl)
    case _ => false
  }

  /** The bytes of an iolist, as erl_iolist_to_string lays them out. */
  function IoText(t: Term): Text
    requires IsIodata(t)
  {
    match t
    case Nil => []
    case Binary(bytes) => bytes
    case Cons(hd, tl) =>
      if IsByte(hd) then [hd.i as char] + IoText(tl) else IoText(hd) + IoText(tl)
  }

  /** The int that a 32-bit pattern stands for when read as signed. */
  function AsSigned(u: UInt32): (i: Int32)
    ensures (i - u) % 0x1_0000_0000 == 0
  {
    if u < 0x8000_0000 then u else u - 0x1_0000_0000
  }
}
