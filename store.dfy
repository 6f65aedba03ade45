/**
 * The cart state of `GabbaStore`: the in-memory list `carrito` and the `localStorage` slot
 * `'carrito'` it is saved to, updated in place by the cart methods.
 */
module Store {
  import opened Wrappers
  import opened Cart

  class GabbaStore {
    /** The lines of the cart, in the order they were first added. */
    var carrito: seq<Line>
    /** The storage slot: `None` when the key is absent, otherwise the saved snapshot. */
    var stored: Option<seq<Line>>

    /** Restoring from the storage slot gives back the in-memory cart. */
    ghost predicate Synced()
      reads this
    {
      Restored(stored) == carrito
    }

    /** Startup: the cart is whatever the slot holds, or empty when the slot is absent. */
    constructor (storage: Option<seq<Line>>)
      ensures stored == storage && carrito == Restored(storage)
      ensures Synced()
    {
      carrito := Restored(storage);
      stored := storage;
    }

    /** `guardarCarrito`: write the whole cart to the slot. */
    method GuardarCarrito()
      modifies this`stored
      ensures stored == Some(carrito)
      ensures Synced()
    {
      stored := Some(carrito);
    }

    /** `carrito.find(item => item.nombre === nombre)`, as the position of the first match. */
    method BuscarPorNombre(nombre: string) returns (r: Option<nat>)
      ensures r == FindByName(carrito, nombre)
      ensures r.Some? ==> r.value < |carrito| && carrito[r.value].nombre == nombre
    {
      var k := 0;
      while k < |carrito|
        invariant 0 <= k <= |carrito|
        invariant forall j :: 0 <= j < k ==> carrito[j].nombre != nombre
      {
        if carrito[k].nombre == nombre {
          return Some(k);
        }
        k := k + 1;
      }
      return None;
    }

    /**
     * `agregarAlCarrito`: bump the line with that name, or append a new line with quantity 1;
     * then save. `id` stands for the value drawn from the clock and a random number.
     */
    method AgregarAlCarrito(id: real, nombre: string, precio: int, imagen: string, categoria: string := "")
      modifies this
      ensures carrito == Added(old(carrito), id, nombre, precio, imagen, categoria)
      ensures stored == Some(carrito) && Synced()
      ensures old(WellFormed(carrito)) ==> WellFormed(carrito)
      ensures Count(carrito) == old(Count(carrito)) + 1
    {
      var existente := BuscarPorNombre(nombre);
      var antes := carrito;
      SumsAdded(antes, id, nombre, precio, imagen, categoria);
      match existente {
        case Some(i) =>
          AddedAt(antes, i, id, nombre, precio, imagen, categoria);
          carrito := WithQuantity(antes, i, antes[i].cantidad + 1);
        case None =>
          AddedAtEnd(antes, id, nombre, precio, imagen, categoria);
          carrito := antes + [NewLine(id, nombre, precio, imagen, categoria)];
      }
      GuardarCarrito();
    }

    /** `eliminarDelCarrito`: drop line `index`, shifting later lines left; then save. */
    method EliminarDelCarrito(index: nat) returns (producto: Line)
      requires index < |carrito|
      modifies this
      ensures producto == old(carrito[index])
      ensures carrito == Removed(old(carrito), index)
      ensures stored == Some(carrito) && Synced()
      ensures old(WellFormed(carrito)) ==> WellFormed(carrito)
      ensures Count(carrito) == old(Count(carrito)) - producto.cantidad
    {
      SumsRemoved(carrito, index);
      producto := carrito[index];
      carrito := carrito[..index] + carrito[index + 1..];
      GuardarCarrito();
    }

    /** `cambiarCantidad`: add `cambio` to line `index`, removing the line if that leaves it at 0 or below. */
    method CambiarCantidad(index: nat, cambio: int)
      requires index < |carrito|
      modifies this
      ensures carrito == QuantityChanged(old(carrito), index, cambio)
      ensures stored == Some(carrito) && Synced()
      ensures old(WellFormed(carrito)) ==> WellFormed(carrito)
    {
      if carrito[index].cantidad + cambio > 0 {
        carrito := carrito[index := carrito[index].(cantidad := carrito[index].cantidad + cambio)];
      } else {
        var _ := EliminarDelCarrito(index);
        return;
      }
      GuardarCarrito();
    }

    /**
     * `actualizarCantidad` after `parseInt` (`None` is NaN): a positive value becomes the quantity
     * of line `index` and is saved; anything else changes nothing, not even the slot.
     */
    method ActualizarCantidad(index: int, cantidad: Option<int>)
      requires cantidad.Some? && cantidad.value > 0 ==> 0 <= index < |carrito|
      modifies this
      ensures carrito == QuantitySet(old(carrito), index, cantidad)
      ensures cantidad.Some? && cantidad.value > 0 ==> stored == Some(carrito)
      ensures !(cantidad.Some? && cantidad.value > 0) ==> stored == old(stored)
      ensures old(Synced()) ==> Synced()
      ensures old(WellFormed(carrito)) ==> WellFormed(carrito)
    {
      if cantidad.Some? && cantidad.value > 0 {
        carrito := carrito[index := carrito[index].(cantidad := cantidad.value)];
        GuardarCarrito();
      }
    }

    /** `limpiarCarrito`: empty the cart and delete the storage key. */
    method LimpiarCarrito()
      modifies this
      ensures carrito == [] && stored == None
      ensures Synced() && WellFormed(carrito) && Count(carrito) == 0
    {
      carrito := [];
      stored := None;
    }
  }

  /** `agregarAlCarrito` twice with the same 80000 hoodie: one line, count 2, subtotal 160000, total 165000. */
  method HoodieScenario(id1: real, id2: real) returns (lines: nat, count: int, subtotal: int, total: int)
    ensures lines == 1 && count == 2 && subtotal == 160000 && total == 165000
  {
    var store := new GabbaStore(None);
    store.AgregarAlCarrito(id1, "Hoodie", 80000, "img1.png", "adults");
    store.AgregarAlCarrito(id2, "Hoodie", 80000, "img1.png", "adults");
    HoodieTwice(id1, id2);
    lines, count, subtotal, total := |store.carrito|, Count(store.carrito),
                                     Subtotal(store.carrito), Total(store.carrito);
  }

  /** Adding a cap (default category) and removing line 0 leaves an empty cart with count 0. */
  method CapScenario(id: real) returns (lines: nat, count: int)
    ensures lines == 0 && count == 0
  {
    var store := new GabbaStore(None);
    store.AgregarAlCarrito(id, "Cap", 30000, "img2.png");
    assert |store.carrito| == 1;
    var _ := store.EliminarDelCarrito(0);
    lines, count := |store.carrito|, Count(store.carrito);
  }

  /** Clearing any restored cart and restoring again from the slot gives an empty cart. */
  method ClearThenRestore(storage: Option<seq<Line>>) returns (restored: seq<Line>)
    ensures restored == [] && Count(restored) == 0
  {
    var store := new GabbaStore(storage);
    store.LimpiarCarrito();
    var reloaded := new GabbaStore(store.stored);
    restored := reloaded.carrito;
  }

  /** Whatever change is made, a store restored from the slot afterwards holds the same lines. */
  method ChangeThenRestore(storage: Option<seq<Line>>, index: nat, cambio: int) returns (before: seq<Line>, after: seq<Line>)
    requires index < |Restored(storage)|
    ensures after == before == QuantityChanged(Restored(storage), index, cambio)
  {
    var store := new GabbaStore(storage);
    store.CambiarCantidad(index, cambio);
    before := store.carrito;
    var reloaded := new GabbaStore(store.stored);
    after := reloaded.carrito;
  }
}
