/** Wire formats as values: which data fit, how they are written, how they are read from the front
    of a byte string. A lawful format reads exactly what it writes. */
module Formats {
  import opened Prelude
  import opened Wire

  datatype Parsed<+T> = Parsed(value: T, rest: Bytes)

  datatype Format<!T> = Format(fits: T -> bool, write: T -> Bytes, read: Bytes -> Option<Parsed<T>>)

  /** Reading undoes writing whatever follows, and anything that reads was written that way. */
  ghost predicate Lawful<T(!new)>(f: Format<T>) {
    && (forall x, rest :: f.fits(x) ==> f.read(f.write(x) + rest) == Some(Parsed(x, rest)))
    && (forall b :: f.read(b).Some? ==> f.fits(f.read(b).value.value) && b == f.write(f.read(b).value.value) + f.read(b).value.rest)
  }

  // ---- fixed-size fields ----

  function ReadFixed(n: nat, b: Bytes): Option<Parsed<Bytes>> {
    if |b| < n then None else Some(Parsed(b[..n], b[n..]))
  }

  /** Exactly `n` bytes. */
  function Fixed(n: nat): Format<Bytes> {
    Format((x: Bytes) => |x| == n, (x: Bytes) => x, (b: Bytes) => ReadFixed(n, b))
  }

  lemma FixedLawful(n: nat)
    ensures Lawful(Fixed(n))
  {
    var f := Fixed(n);
    forall x: Bytes, rest: Bytes | f.fits(x)
      ensures f.read(f.write(x) + rest) == Some(Parsed(x, rest))
    {
      assert (x + rest)[..n] == x && (x + rest)[n..] == rest;
    }
  }

  function ReadUInt(width: nat, b: Bytes): Option<Parsed<nat>> {
    if |b| < width then None else Some(Parsed(FromBE(b[..width]), b[width..]))
  }

  /** A big-endian unsigned integer of this many bytes. */
  function UInt(width: nat): Format<nat> {
    Format((x: nat) => x < Pow256(width), (x: nat) => BE(x, width), (b: Bytes) => ReadUInt(width, b))
  }

  lemma UIntLawful(width: nat)
    ensures Lawful(UInt(width))
  {
    var f := UInt(width);
    forall x: nat, rest: Bytes | f.fits(x)
      ensures f.read(f.write(x) + rest) == Some(Parsed(x, rest))
    {
      ReadWritten(x, width);
      assert (BE(x, width) + rest)[..width] == BE(x, width) && (BE(x, width) + rest)[width..] == rest;
    }
    forall b: Bytes | f.read(b).Some?
      ensures f.fits(f.read(b).value.value) && b == f.write(f.read(b).value.value) + f.read(b).value.rest
    {
      FromBEBound(b[..width]);
      WriteRead(b[..width]);
    }
  }

  // ---- one after the other ----

  function ReadPair<A, B>(f: Format<A>, g: Format<B>, b: Bytes): Option<Parsed<(A, B)>> {
    match f.read(b)
    case None => None
    case Some(first) =>
      match g.read(first.rest)
      case None => None
      case Some(second) => Some(Parsed((first.value, second.value), second.rest))
  }

  function Pair<A, B>(f: Format<A>, g: Format<B>): Format<(A, B)> {
    Format((x: (A, B)) => f.fits(x.0) && g.fits(x.1), (x: (A, B)) => f.write(x.0) + g.write(x.1), (b: Bytes) => ReadPair(f, g, b))
  }

  lemma PairLawful<A(!new), B(!new)>(f: Format<A>, g: Format<B>)
    requires Lawful(f) && Lawful(g)
    ensures Lawful(Pair(f, g))
  {
    var h := Pair(f, g);
    forall x: (A, B), rest: Bytes | h.fits(x)
      ensures h.read(h.write(x) + rest) == Some(Parsed(x, rest))
    {
      assert h.write(x) + rest == f.write(x.0) + (g.write(x.1) + rest);
    }
    forall b: Bytes | h.read(b).Some?
      ensures h.fits(h.read(b).value.value) && b == h.write(h.read(b).value.value) + h.read(b).value.rest
    {
      var first := f.read(b).value;
      var second := g.read(first.rest).value;
      assert b == f.write(first.value) + (g.write(second.value) + second.rest);
      assert b == (f.write(first.value) + g.write(second.value)) + second.rest;
    }
  }

  // ---- further conditions, and other names for the same data ----

  function ReadOnly<T>(f: Format<T>, ok: T -> bool, b: Bytes): Option<Parsed<T>> {
    match f.read(b)
    case None => None
    case Some(p) => if ok(p.value) then Some(p) else None
  }

  /** Only the values that also satisfy `ok`. */
  function Only<T>(f: Format<T>, ok: T -> bool): Format<T> {
    Format((x: T) => f.fits(x) && ok(x), f.write, (b: Bytes) => ReadOnly(f, ok, b))
  }

  lemma OnlyLawful<T(!new)>(f: Format<T>, ok: T -> bool)
    requires Lawful(f)
    ensures Lawful(Only(f, ok))
  {
    var g := Only(f, ok);
    assert forall b: Bytes :: g.read(b).Some? ==> g.read(b) == f.read(b);
  }

  function ReadAs<A, B>(f: Format<A>, to: A -> B, b: Bytes): Option<Parsed<B>> {
    match f.read(b)
    case None => None
    case Some(p) => Some(Parsed(to(p.value), p.rest))
  }

  /** The same bytes under another data type. */
  function As<A, B>(f: Format<A>, to: A -> B, back: B -> A): Format<B> {
    Format((y: B) => f.fits(back(y)), (y: B) => f.write(back(y)), (b: Bytes) => ReadAs(f, to, b))
  }

  lemma AsLawful<A(!new), B(!new)>(f: Format<A>, to: A -> B, back: B -> A)
    requires Lawful(f) && (forall y :: to(back(y)) == y) && (forall x :: back(to(x)) == x)
    ensures Lawful(As(f, to, back))
  {
    var g := As(f, to, back);
    forall y: B, rest: Bytes | g.fits(y)
      ensures g.read(g.write(y) + rest) == Some(Parsed(y, rest))
    {
      assert f.read(f.write(back(y)) + rest) == Some(Parsed(back(y), rest));
    }
    forall b: Bytes | g.read(b).Some?
      ensures g.fits(g.read(b).value.value) && b == g.write(g.read(b).value.value) + g.read(b).value.rest
    {
      assert back(to(f.read(b).value.value)) == f.read(b).value.value;
    }
  }

  // ---- length-prefixed bytes ----

  function ReadBlob(width: nat, low: nat, high: nat, b: Bytes): Option<Parsed<Bytes>> {
    match ReadUInt(width, b)
    case None => None
    case Some(p) => if low <= p.value <= high then ReadFixed(p.value, p.rest) else None
  }

  /** Between `low` and `high` bytes behind their length. */
  function Blob(width: nat, low: nat, high: nat): Format<Bytes> {
    Format((x: Bytes) => low <= |x| <= high && |x| < Pow256(width), (x: Bytes) => BE(|x|, width) + x, (b: Bytes) => ReadBlob(width, low, high, b))
  }

  lemma BlobLawful(width: nat, low: nat, high: nat)
    ensures Lawful(Blob(width, low, high))
  {
    var f := Blob(width, low, high);
    forall x: Bytes, rest: Bytes | f.fits(x)
      ensures f.read(f.write(x) + rest) == Some(Parsed(x, rest))
    {
      ReadWritten(|x|, width);
      var b := BE(|x|, width) + x + rest;
      assert b[..width] == BE(|x|, width) && b[width..] == x + rest;
      assert (x + rest)[..|x|] == x && (x + rest)[|x|..] == rest;
    }
    forall b: Bytes | f.read(b).Some?
      ensures f.fits(f.read(b).value.value) && b == f.write(f.read(b).value.value) + f.read(b).value.rest
    {
      FromBEBound(b[..width]);
      WriteRead(b[..width]);
      var n := FromBE(b[..width]);
      assert b == b[..width] + b[width..][..n] + b[width..][n..];
    }
  }

  // ---- counted lists ----

  function WriteAll<T>(f: Format<T>, xs: seq<T>): Bytes {
    if xs == [] then [] else f.write(xs[0]) + WriteAll(f, xs[1..])
  }

  lemma {:induction false} WriteAllAppend<T>(f: Format<T>, xs: seq<T>, x: T)
    ensures WriteAll(f, xs + [x]) == WriteAll(f, xs) + f.write(x)
  {
    if xs == [] {
      assert xs + [x] == [x] && [x][1..] == [];
      assert WriteAll(f, [x]) == f.write(x) + WriteAll(f, []);
    } else {
      WriteAllAppend(f, xs[1..], x);
      assert (xs + [x])[1..] == xs[1..] + [x] && (xs + [x])[0] == xs[0];
    }
  }

  function ReadMany<T>(f: Format<T>, n: nat, b: Bytes): Option<Parsed<seq<T>>> {
    if n == 0 then Some(Parsed([], b))
    else
      match f.read(b)
      case None => None
      case Some(first) =>
        match ReadMany(f, n - 1, first.rest)
        case None => None
        case Some(others) => Some(Parsed([first.value] + others.value, others.rest))
  }

  function ReadList<T>(f: Format<T>, maximum: nat, b: Bytes): Option<Parsed<seq<T>>> {
    match ReadUInt(2, b)
    case None => None
    case Some(p) => if p.value <= maximum then ReadMany(f, p.value, p.rest) else None
  }

  predicate AllFit<T>(f: Format<T>, xs: seq<T>) {
    forall i :: 0 <= i < |xs| ==> f.fits(xs[i])
  }

  /** At most `maximum` elements behind a two-byte count. */
  function Listed<T>(f: Format<T>, maximum: nat): Format<seq<T>> {
    Format((xs: seq<T>) => |xs| <= maximum && |xs| < Pow256(2) && AllFit(f, xs), (xs: seq<T>) => BE(|xs|, 2) + WriteAll(f, xs), (b: Bytes) => ReadList(f, maximum, b))
  }

  lemma {:induction false} ReadManyWritten<T(!new)>(f: Format<T>, xs: seq<T>, rest: Bytes)
    requires Lawful(f) && AllFit(f, xs)
    ensures ReadMany(f, |xs|, WriteAll(f, xs) + rest) == Some(Parsed(xs, rest))
  {
    if xs == [] {
      assert WriteAll(f, xs) + rest == rest;
    } else {
      var others := WriteAll(f, xs[1..]) + rest;
      assert WriteAll(f, xs) + rest == f.write(xs[0]) + others;
      ReadManyWritten(f, xs[1..], rest);
      assert [xs[0]] + xs[1..] == xs;
    }
  }

  lemma {:induction false} ManyWereWritten<T(!new)>(f: Format<T>, n: nat, b: Bytes)
    requires Lawful(f) && ReadMany(f, n, b).Some?
    ensures var p := ReadMany(f, n, b).value; |p.value| == n && AllFit(f, p.value) && b == WriteAll(f, p.value) + p.rest
  {
    if n > 0 {
      var first := f.read(b).value;
      ManyWereWritten(f, n - 1, first.rest);
      var others := ReadMany(f, n - 1, first.rest).value;
      var xs := [first.value] + others.value;
      assert xs[1..] == others.value;
      assert b == f.write(first.value) + (WriteAll(f, others.value) + others.rest);
    }
  }

  lemma ListRead<T(!new)>(f: Format<T>, maximum: nat, xs: seq<T>, rest: Bytes)
    requires Lawful(f) && Listed(f, maximum).fits(xs)
    ensures ReadList(f, maximum, BE(|xs|, 2) + WriteAll(f, xs) + rest) == Some(Parsed(xs, rest))
  {
    hide Lawful, AllFit, WriteAll, ReadMany, BE, FromBE, Pow256;
    ReadWritten(|xs|, 2);
    var b := BE(|xs|, 2) + WriteAll(f, xs) + rest;
    assert b[..2] == BE(|xs|, 2) && b[2..] == WriteAll(f, xs) + rest;
    ReadManyWritten(f, xs, rest);
  }

  lemma ListWasWritten<T(!new)>(f: Format<T>, maximum: nat, b: Bytes)
    requires Lawful(f) && ReadList(f, maximum, b).Some?
    ensures var p := ReadList(f, maximum, b).value;
            Listed(f, maximum).fits(p.value) && b == BE(|p.value|, 2) + WriteAll(f, p.value) + p.rest
  {
    hide Lawful, AllFit, WriteAll, ReadMany, BE, FromBE, Pow256;
    FromBEBound(b[..2]);
    WriteRead(b[..2]);
    ManyWereWritten(f, FromBE(b[..2]), b[2..]);
    var p := ReadList(f, maximum, b).value;
    assert b == b[..2] + b[2..];
  }

  lemma ListedLawful<T(!new)>(f: Format<T>, maximum: nat)
    requires Lawful(f)
    ensures Lawful(Listed(f, maximum))
  {
    hide Lawful, AllFit, WriteAll, ReadList;
    var g := Listed(f, maximum);
    forall xs: seq<T>, rest: Bytes | g.fits(xs)
      ensures g.read(g.write(xs) + rest) == Some(Parsed(xs, rest))
    {
      ListRead(f, maximum, xs, rest);
    }
    forall b: Bytes | g.read(b).Some?
      ensures g.fits(g.read(b).value.value) && b == g.write(g.read(b).value.value) + g.read(b).value.rest
    {
      ListWasWritten(f, maximum, b);
    }
    LawfulFrom(g);
  }

  lemma LawfulFrom<T(!new)>(f: Format<T>)
    requires forall x, rest :: f.fits(x) ==> f.read(f.write(x) + rest) == Some(Parsed(x, rest))
    requires forall b :: f.read(b).Some? ==> f.fits(f.read(b).value.value) && b == f.write(f.read(b).value.value) + f.read(b).value.rest
    ensures Lawful(f)
  {
  }
}
