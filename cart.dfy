/**
 * The shopping cart of `GabbaStore` as a value: an ordered list of lines, the result of each
 * cart operation as a function of the list before it, and the aggregates shown to the customer
 * (the item-count badge, the order subtotal and total).
 */
module Cart {
  import opened Wrappers

  /** Flat shipping cost added once to every order (`costoEnvio`). */
  const CostoEnvio: int := 5000

  /**
   * One line of the cart. `id` is the opaque value made from the clock and a random number
   * when the line is created; nothing in the cart reads it.
   */
  datatype Line = Line(nombre: string, precio: int, imagen: string, categoria: string,
                       cantidad: int, id: real)

  /** The cart invariant: every quantity is at least 1 and no two lines share a name. */
  ghost predicate WellFormed(c: seq<Line>)
  {
    (forall i :: 0 <= i < |c| ==> c[i].cantidad >= 1) &&
    (forall i, j :: 0 <= i < j < |c| ==> c[i].nombre != c[j].nombre)
  }

  /** Some line of `c` is named `nombre`. */
  ghost predicate HasName(c: seq<Line>, nombre: string)
  {
    exists i :: 0 <= i < |c| && c[i].nombre == nombre
  }

  /** `b` differs from `a` at most in the quantity. */
  ghost predicate SameProduct(a: Line, b: Line)
  {
    a.nombre == b.nombre && a.precio == b.precio && a.imagen == b.imagen &&
    a.categoria == b.categoria && a.id == b.id
  }

  /** `carrito.find(item => item.nombre === nombre)`, as the position of the first match. */
  function FindByName(c: seq<Line>, nombre: string): (r: Option<nat>)
    ensures r.Some? ==> r.value < |c| && c[r.value].nombre == nombre
    ensures r.Some? ==> forall j :: 0 <= j < r.value ==> c[j].nombre != nombre
    ensures r.None? <==> !HasName(c, nombre)
    decreases |c|
  {
    if c == [] then None
    else if c[0].nombre == nombre then Some(0)
    else match FindByName(c[1..], nombre)
      case None => None
      case Some(i) => Some(i + 1)
  }

  /** In a well-formed cart the line named `nombre` is the only one, so `find` picks it. */
  lemma FindUnique(c: seq<Line>, nombre: string, i: nat)
    requires WellFormed(c) && i < |c| && c[i].nombre == nombre
    ensures FindByName(c, nombre) == Some(i)
  {
  }

  /** The cart with line `i` given quantity `q`. */
  function WithQuantity(c: seq<Line>, i: nat, q: int): (r: seq<Line>)
    requires i < |c|
    ensures |r| == |c| && r[i].cantidad == q && SameProduct(c[i], r[i])
    ensures forall j :: 0 <= j < |c| && j != i ==> r[j] == c[j]
  {
    c[i := c[i].(cantidad := q)]
  }

  /** The line `agregarAlCarrito` appends for a product not yet in the cart. */
  function NewLine(id: real, nombre: string, precio: int, imagen: string, categoria: string): (l: Line)
  {
    Line(nombre, precio, imagen, categoria, 1, id)
  }

  /**
   * `agregarAlCarrito`: bump the quantity of the first line with the same name, or append a new
   * line with quantity 1 (whose `id` is only used in this case).
   */
  function Added(c: seq<Line>, id: real, nombre: string, precio: int, imagen: string,
                 categoria: string): (r: seq<Line>)
    ensures HasName(c, nombre) ==> |r| == |c|
    ensures !HasName(c, nombre) ==>
              |r| == |c| + 1 && r[..|c|] == c && r[|c|] == NewLine(id, nombre, precio, imagen, categoria)
    ensures forall j :: 0 <= j < |c| ==> SameProduct(c[j], r[j])
    ensures HasName(r, nombre)
    ensures WellFormed(c) ==> WellFormed(r)
  {
    match FindByName(c, nombre)
    case Some(i) => WithQuantity(c, i, c[i].cantidad + 1)
    case None => c + [NewLine(id, nombre, precio, imagen, categoria)]
  }

  /** `Added` when `find` returns line `i`. */
  lemma AddedAt(c: seq<Line>, i: nat, id: real, nombre: string, precio: int, imagen: string, categoria: string)
    requires FindByName(c, nombre) == Some(i)
    ensures Added(c, id, nombre, precio, imagen, categoria) == WithQuantity(c, i, c[i].cantidad + 1)
  {
  }

  /** `Added` when `find` returns nothing. */
  lemma AddedAtEnd(c: seq<Line>, id: real, nombre: string, precio: int, imagen: string, categoria: string)
    requires FindByName(c, nombre).None?
    ensures Added(c, id, nombre, precio, imagen, categoria) == c + [NewLine(id, nombre, precio, imagen, categoria)]
  {
  }

  /** `carrito.splice(index, 1)` for an index inside the cart. */
  function Removed(c: seq<Line>, index: nat): (r: seq<Line>)
    requires index < |c|
    ensures |r| == |c| - 1
    ensures forall j :: 0 <= j < index ==> r[j] == c[j]
    ensures forall j :: index <= j < |r| ==> r[j] == c[j + 1]
    ensures WellFormed(c) ==> WellFormed(r)
  {
    c[..index] + c[index + 1..]
  }

  /** `cambiarCantidad`: add `cambio` to line `index`, or drop the line if that leaves it at 0 or below. */
  function QuantityChanged(c: seq<Line>, index: nat, cambio: int): (r: seq<Line>)
    requires index < |c|
    ensures c[index].cantidad + cambio > 0 ==> |r| == |c| && r[index].cantidad == c[index].cantidad + cambio
    ensures c[index].cantidad + cambio > 0 ==>
              SameProduct(c[index], r[index]) && forall j :: 0 <= j < |c| && j != index ==> r[j] == c[j]
    ensures c[index].cantidad + cambio <= 0 ==> r == Removed(c, index)
    ensures (forall j :: 0 <= j < |c| ==> c[j].cantidad >= 1) ==> forall j :: 0 <= j < |r| ==> r[j].cantidad >= 1
    ensures WellFormed(c) ==> WellFormed(r)
  {
    if c[index].cantidad + cambio > 0 then WithQuantity(c, index, c[index].cantidad + cambio)
    else Removed(c, index)
  }

  /**
   * `actualizarCantidad` after `parseInt`: `None` stands for NaN. Only a positive value is applied,
   * and only then is the line at `index` looked at.
   */
  function QuantitySet(c: seq<Line>, index: int, cantidad: Option<int>): (r: seq<Line>)
    requires cantidad.Some? && cantidad.value > 0 ==> 0 <= index < |c|
    ensures !(cantidad.Some? && cantidad.value > 0) ==> r == c
    ensures cantidad.Some? && cantidad.value > 0 ==>
              |r| == |c| && r[index].cantidad == cantidad.value && SameProduct(c[index], r[index]) &&
              forall j :: 0 <= j < |c| && j != index ==> r[j] == c[j]
    ensures WellFormed(c) ==> WellFormed(r)
  {
    if cantidad.Some? && cantidad.value > 0 then WithQuantity(c, index, cantidad.value) else c
  }

  /** Startup restore: `JSON.parse(localStorage.getItem('carrito')) || []` with the slot as a value. */
  function Restored(stored: Option<seq<Line>>): (r: seq<Line>)
    ensures stored.None? ==> r == []
    ensures stored.Some? ==> r == stored.value
  {
    match stored
    case None => []
    case Some(c) => c
  }

  /** The badge count: the sum of the quantities of all lines. */
  function Count(c: seq<Line>): (n: int)
    ensures (forall i :: 0 <= i < |c| ==> c[i].cantidad >= 1) ==> n >= |c|
    decreases |c|
  {
    if c == [] then 0 else c[0].cantidad + Count(c[1..])
  }

  /** What one line costs: its unit price times its quantity. */
  function LineAmount(l: Line): (a: int)
    ensures l.precio >= 0 && l.cantidad >= 1 ==> a >= l.precio
  {
    l.precio * l.cantidad
  }

  /** The order subtotal: the sum of `precio * cantidad` over all lines. */
  function Subtotal(c: seq<Line>): (s: int)
    ensures (forall i :: 0 <= i < |c| ==> c[i].precio >= 0 && c[i].cantidad >= 1) ==> s >= 0
    decreases |c|
  {
    if c == [] then 0 else LineAmount(c[0]) + Subtotal(c[1..])
  }

  /** The order total: subtotal plus the flat shipping cost. */
  function Total(c: seq<Line>): (t: int)
    ensures (forall i :: 0 <= i < |c| ==> c[i].precio >= 0 && c[i].cantidad >= 1) ==> t >= CostoEnvio
  {
    Subtotal(c) + CostoEnvio
  }

  /** Multiplication distributes over the sum of two quantities. */
  lemma Distribute(p: int, n: int, d: int)
    ensures p * (n + d) == p * n + p * d
  {
  }

  /** Both sums split over a concatenation. */
  lemma {:induction false} SumsAppend(a: seq<Line>, b: seq<Line>)
    ensures Count(a + b) == Count(a) + Count(b)
    ensures Subtotal(a + b) == Subtotal(a) + Subtotal(b)
    decreases |a|
  {
    if a == [] {
      assert a + b == b;
    } else {
      assert (a + b)[1..] == a[1..] + b;
      SumsAppend(a[1..], b);
    }
  }

  /** Both sums of a one-line cart. */
  lemma SumsSingle(l: Line)
    ensures Count([l]) == l.cantidad && Subtotal([l]) == LineAmount(l)
  {
  }

  /** Both sums split around line `i`. */
  lemma SumsAround(c: seq<Line>, i: nat)
    requires i < |c|
    ensures Count(c) == Count(c[..i]) + c[i].cantidad + Count(c[i + 1..])
    ensures Subtotal(c) == Subtotal(c[..i]) + LineAmount(c[i]) + Subtotal(c[i + 1..])
  {
    assert c == c[..i] + c[i..];
    SumsAppend(c[..i], c[i..]);
    assert c[i..][1..] == c[i + 1..];
  }

  /** Setting line `i` to quantity `q` moves the count by the difference and the subtotal by its price times it. */
  lemma SumsWithQuantity(c: seq<Line>, i: nat, q: int)
    requires i < |c|
    ensures Count(WithQuantity(c, i, q)) == Count(c) - c[i].cantidad + q
    ensures Subtotal(WithQuantity(c, i, q)) == Subtotal(c) - LineAmount(c[i]) + c[i].precio * q
  {
    var r := WithQuantity(c, i, q);
    SumsAround(c, i);
    SumsAround(r, i);
    assert r[..i] == c[..i] && r[i + 1..] == c[i + 1..];
  }

  /** Removing line `i` takes its quantity off the count and its amount off the subtotal. */
  lemma SumsRemoved(c: seq<Line>, i: nat)
    requires i < |c|
    ensures Count(Removed(c, i)) == Count(c) - c[i].cantidad
    ensures Subtotal(Removed(c, i)) == Subtotal(c) - LineAmount(c[i])
    ensures Total(Removed(c, i)) == Total(c) - LineAmount(c[i])
  {
    SumsAround(c, i);
    SumsAppend(c[..i], c[i + 1..]);
  }

  /** One more unit adds the unit price to a line's amount. */
  lemma AmountBumped(l: Line)
    ensures l.precio * (l.cantidad + 1) == LineAmount(l) + l.precio
  {
  }

  /** Bumping line `i` by one raises the count by one and the subtotal by its price. */
  lemma SumsBumped(c: seq<Line>, i: nat)
    requires i < |c|
    ensures Count(WithQuantity(c, i, c[i].cantidad + 1)) == Count(c) + 1
    ensures Subtotal(WithQuantity(c, i, c[i].cantidad + 1)) == Subtotal(c) + c[i].precio
  {
    SumsWithQuantity(c, i, c[i].cantidad + 1);
    AmountBumped(c[i]);
  }

  /** Adding a product raises the count by exactly one and the subtotal by the price of its line. */
  lemma SumsAdded(c: seq<Line>, id: real, nombre: string, precio: int, imagen: string, categoria: string)
    ensures Count(Added(c, id, nombre, precio, imagen, categoria)) == Count(c) + 1
    ensures Subtotal(Added(c, id, nombre, precio, imagen, categoria)) ==
              Subtotal(c) + match FindByName(c, nombre) case Some(i) => c[i].precio case None => precio
    ensures Total(Added(c, id, nombre, precio, imagen, categoria)) ==
              Total(c) + match FindByName(c, nombre) case Some(i) => c[i].precio case None => precio
  {
    var r := Added(c, id, nombre, precio, imagen, categoria);
    match FindByName(c, nombre)
    case Some(i) =>
      assert r == WithQuantity(c, i, c[i].cantidad + 1);
      SumsBumped(c, i);
    case None =>
      var l := NewLine(id, nombre, precio, imagen, categoria);
      assert r == c + [l];
      SumsAppend(c, [l]);
      SumsSingle(l);
  }

  /** Adding a product already in a well-formed cart bumps exactly its line. */
  lemma AddedExisting(c: seq<Line>, i: nat, id: real, nombre: string, precio: int, imagen: string,
                      categoria: string)
    requires WellFormed(c) && i < |c| && c[i].nombre == nombre
    ensures FindByName(c, nombre) == Some(i)
    ensures Added(c, id, nombre, precio, imagen, categoria) == WithQuantity(c, i, c[i].cantidad + 1)
  {
  }

  /**
   * Changing the quantity moves the count by `cambio` and the subtotal by the price times `cambio`,
   * or takes the whole line off both when it is dropped.
   */
  lemma SumsQuantityChanged(c: seq<Line>, index: nat, cambio: int)
    requires index < |c|
    ensures c[index].cantidad + cambio > 0 ==> Count(QuantityChanged(c, index, cambio)) == Count(c) + cambio
    ensures c[index].cantidad + cambio > 0 ==>
              Subtotal(QuantityChanged(c, index, cambio)) == Subtotal(c) + c[index].precio * cambio
    ensures c[index].cantidad + cambio <= 0 ==>
              Count(QuantityChanged(c, index, cambio)) == Count(c) - c[index].cantidad
    ensures c[index].cantidad + cambio <= 0 ==>
              Subtotal(QuantityChanged(c, index, cambio)) == Subtotal(c) - LineAmount(c[index])
  {
    var p, n := c[index].precio, c[index].cantidad;
    if n + cambio > 0 {
      SumsWithQuantity(c, index, n + cambio);
      Distribute(p, n, cambio);
    } else {
      SumsRemoved(c, index);
    }
  }

  /**
   * Setting the quantity of line `index` to `q` moves the count by `q` minus its previous quantity
   * and the subtotal by the price times that difference; an ignored value moves neither.
   */
  lemma SumsQuantitySet(c: seq<Line>, index: int, cantidad: Option<int>)
    requires cantidad.Some? && cantidad.value > 0 ==> 0 <= index < |c|
    ensures cantidad.Some? && cantidad.value > 0 ==>
              Count(QuantitySet(c, index, cantidad)) == Count(c) - c[index].cantidad + cantidad.value
    ensures cantidad.Some? && cantidad.value > 0 ==>
              Subtotal(QuantitySet(c, index, cantidad)) ==
              Subtotal(c) - LineAmount(c[index]) + c[index].precio * cantidad.value
    ensures !(cantidad.Some? && cantidad.value > 0) ==> Count(QuantitySet(c, index, cantidad)) == Count(c)
    ensures !(cantidad.Some? && cantidad.value > 0) ==> Subtotal(QuantitySet(c, index, cantidad)) == Subtotal(c)
  {
    if cantidad.Some? && cantidad.value > 0 {
      SumsWithQuantity(c, index, cantidad.value);
    }
  }

  /** Setting a line to minus its quantity through `cambiarCantidad` removes it. */
  lemma ChangeToZeroRemoves(c: seq<Line>, index: nat)
    requires index < |c|
    ensures QuantityChanged(c, index, -c[index].cantidad) == Removed(c, index)
    ensures |QuantityChanged(c, index, -c[index].cantidad)| == |c| - 1
  {
  }

  /** Adding the 80000 hoodie twice to an empty cart: one line, count 2, subtotal 160000, total 165000. */
  lemma HoodieTwice(id1: real, id2: real)
    ensures var c := Added(Added([], id1, "Hoodie", 80000, "img1.png", "adults"),
                           id2, "Hoodie", 80000, "img1.png", "adults");
            |c| == 1 && c[0].cantidad == 2 && c[0].id == id1 &&
            Count(c) == 2 && Subtotal(c) == 160000 && Total(c) == 165000
  {
  }
}
