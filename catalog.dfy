/**
 * The visibility decisions of the product grid: the five attribute filters of `filtrarProductos`
 * and the text search of `buscarProductos`, for one product at a time.
 */
module Catalog {
  import opened Wrappers
  import opened Text

  /** The control value that switches off the category, price and gender filters. */
  const Todos: string := "todos"
  /** The control value that switches off the size and age filters. */
  const Todas: string := "todas"
  /** The gender tag of a product shown under either gender filter. */
  const Unisex: string := "unisex"

  /** The price control: every price, or the inclusive range given as "min-max". */
  datatype PriceFilter = AnyPrice | Range(min: int, max: int)

  /** The values of the five filter controls. */
  datatype Filters = Filters(categoria: string, precio: PriceFilter, talla: string, edad: string,
                             genero: string)

  /** A product's `data-*` attributes; `None` is an attribute the element does not carry. */
  datatype Product = Product(categoria: Option<string>, precio: int, tallas: Option<string>,
                             edad: Option<string>, genero: Option<string>)

  /** `element?.value || fallback`: a missing control or an empty value reads as the fallback. */
  function ControlValue(control: Option<string>, fallback: string): string
  {
    if control.Some? && control.value != "" then control.value else fallback
  }

  /** A control that is missing, empty or set to `all` leaves its filter switched off. */
  ghost predicate ReadsAsOff(control: Option<string>, all: string)
  {
    control.None? || control == Some("") || control == Some(all)
  }

  /**
   * The filter object built from the five controls, each read as `element?.value || 'todos'`
   * (or `'todas'`). The price control arrives already split into its range; `None` is a missing
   * or empty control.
   */
  function ReadFilters(categoria: Option<string>, precio: Option<PriceFilter>, talla: Option<string>,
                       edad: Option<string>, genero: Option<string>): (f: Filters)
    ensures f.categoria == Todos <==> ReadsAsOff(categoria, Todos)
    ensures f.talla == Todas <==> ReadsAsOff(talla, Todas)
    ensures f.edad == Todas <==> ReadsAsOff(edad, Todas)
    ensures f.genero == Todos <==> ReadsAsOff(genero, Todos)
    ensures !ReadsAsOff(categoria, Todos) ==> Some(f.categoria) == categoria
    ensures !ReadsAsOff(talla, Todas) ==> Some(f.talla) == talla
    ensures !ReadsAsOff(edad, Todas) ==> Some(f.edad) == edad
    ensures !ReadsAsOff(genero, Todos) ==> Some(f.genero) == genero
    ensures precio.None? ==> f.precio == AnyPrice
    ensures precio.Some? ==> f.precio == precio.value
  {
    Filters(ControlValue(categoria, Todos),
            if precio.Some? then precio.value else AnyPrice,
            ControlValue(talla, Todas), ControlValue(edad, Todas), ControlValue(genero, Todos))
  }

  /** A missing or empty control shows the same products as that control set to its "all" value. */
  lemma {:induction false} MissingControlIsOff(p: Product, categoria: Option<string>, precio: Option<PriceFilter>,
                                               talla: Option<string>, edad: Option<string>, genero: Option<string>, missing: Option<string>)
    requires missing.None? || missing == Some("")
    ensures Visible(p, ReadFilters(missing, precio, talla, edad, genero)) ==
            Visible(p, ReadFilters(Some(Todos), precio, talla, edad, genero))
    ensures Visible(p, ReadFilters(categoria, precio, missing, edad, genero)) ==
            Visible(p, ReadFilters(categoria, precio, Some(Todas), edad, genero))
    ensures Visible(p, ReadFilters(categoria, precio, talla, missing, genero)) ==
            Visible(p, ReadFilters(categoria, precio, talla, Some(Todas), genero))
    ensures Visible(p, ReadFilters(categoria, precio, talla, edad, missing)) ==
            Visible(p, ReadFilters(categoria, precio, talla, edad, Some(Todos)))
    ensures Visible(p, ReadFilters(categoria, None, talla, edad, genero)) ==
            Visible(p, ReadFilters(categoria, Some(AnyPrice), talla, edad, genero))
  {
  }

  /** A page without any filter control shows every product. */
  lemma NoControlsShowsAll(p: Product)
    ensures Visible(p, ReadFilters(None, None, None, None, None))
  {
  }

  /**
   * `filtrarProductos` for one product, step by step: start from `mostrar`
   * true and let each active filter clear it; the later filters only look while it is still set.
   */
  function Visible(p: Product, f: Filters): (mostrar: bool)
    ensures mostrar ==> CategoryPasses(p, f) && PricePasses(p, f) && AgePasses(p, f) && GenderPasses(p, f)
  {
    var m1 := !(f.categoria != Todos && p.categoria != Some(f.categoria));
    var m2 := if f.precio != AnyPrice && m1 && (p.precio < f.precio.min || p.precio > f.precio.max)
              then false else m1;
    var m3 := if f.talla != Todas && m2 &&
                 p.tallas.Some? && p.tallas.value != "" && !Contains(p.tallas.value, f.talla)
              then false else m2;
    var m4 := if f.edad != Todas && m3 && p.edad != Some(f.edad) then false else m3;
    var m5 := if f.genero != Todos && m4 && p.genero != Some(f.genero) && p.genero != Some(Unisex)
              then false else m4;
    m5
  }

  /** The category, when filtered, is the chosen one. */
  ghost predicate CategoryPasses(p: Product, f: Filters)
  {
    f.categoria == Todos || p.categoria == Some(f.categoria)
  }

  /** The price, when filtered, lies in the closed range. */
  ghost predicate PricePasses(p: Product, f: Filters)
  {
    f.precio.AnyPrice? || f.precio.min <= p.precio <= f.precio.max
  }

  /**
   * The size, when filtered, occurs in the size text, or the product lists no sizes at all. The
   * text is searched for the size as a substring, as `String.prototype.includes` does.
   */
  ghost predicate SizePasses(p: Product, f: Filters)
  {
    f.talla == Todas || p.tallas.None? || p.tallas.value == "" ||
    exists i :: OccursAt(p.tallas.value, f.talla, i)
  }

  /** The age bracket, when filtered, is the chosen one. */
  ghost predicate AgePasses(p: Product, f: Filters)
  {
    f.edad == Todas || p.edad == Some(f.edad)
  }

  /** The gender, when filtered, is the chosen one or unisex. */
  ghost predicate GenderPasses(p: Product, f: Filters)
  {
    f.genero == Todos || p.genero == Some(f.genero) || p.genero == Some(Unisex)
  }

  /** A product is shown exactly when every filter passes it, whichever order they are tried in. */
  lemma VisibleIffAllPass(p: Product, f: Filters)
    ensures Visible(p, f) <==>
              CategoryPasses(p, f) && PricePasses(p, f) && SizePasses(p, f) &&
              AgePasses(p, f) && GenderPasses(p, f)
  {
    if p.tallas.Some? {
      ContainsIffOccurs(p.tallas.value, f.talla);
    }
  }

  /** With every control on its "all" value every product is shown. */
  lemma NoFilterShowsAll(p: Product)
    ensures Visible(p, Filters(Todos, AnyPrice, Todas, Todas, Todos))
  {
  }

  /** Switching one filter off never hides a product that was shown. */
  lemma DisablingNeverHides(p: Product, f: Filters)
    requires Visible(p, f)
    ensures Visible(p, f.(categoria := Todos)) && Visible(p, f.(precio := AnyPrice))
    ensures Visible(p, f.(talla := Todas)) && Visible(p, f.(edad := Todas))
    ensures Visible(p, f.(genero := Todos))
  {
  }

  /**
   * `buscarProductos` for one product, with the lower-cased name and description and the
   * lower-cased, trimmed term: shown when either text includes the term, or the term is empty.
   */
  predicate Shown(nombre: string, descripcion: string, termino: string)
    ensures Shown(nombre, descripcion, termino) ==> |termino| <= |nombre| || |termino| <= |descripcion|
  {
    Contains(nombre, termino) || Contains(descripcion, termino) || termino == ""
  }

  /** A blank term shows every product. */
  lemma BlankTermShowsAll(nombre: string, descripcion: string)
    ensures Shown(nombre, descripcion, "")
  {
  }

  /** A product is shown exactly when the term occurs in its name or its description. */
  lemma ShownIffOccurs(nombre: string, descripcion: string, termino: string)
    ensures Shown(nombre, descripcion, termino) <==>
              (exists i :: OccursAt(nombre, termino, i)) || (exists i :: OccursAt(descripcion, termino, i))
  {
    ContainsIffOccurs(nombre, termino);
    ContainsIffOccurs(descripcion, termino);
    if termino == "" {
      ContainsEmpty(nombre);
    }
  }

  /** Typing more characters never brings back a product the shorter term hid. */
  lemma LongerTermShowsFewer(nombre: string, descripcion: string, termino: string, more: string)
    requires Shown(nombre, descripcion, termino + more)
    ensures Shown(nombre, descripcion, termino)
  {
    ContainsOwnPrefix(termino, more);
    if Contains(nombre, termino + more) {
      ContainsTransitive(nombre, termino + more, termino);
    } else if Contains(descripcion, termino + more) {
      ContainsTransitive(descripcion, termino + more, termino);
    }
  }
}
