/**
  The factory-method forms of ch_13_gof_1/factory_method.cpp.

  - `UIForm` holds button and edit lists but its `addButton`, `addEdit`, `show`
    and `close` are empty stubs.
  - `BaseUIForm::addButton` / `addEdit` append whatever the virtual factories
    `makeButton` / `makeEdit` produce. `ModernUIForm` overrides only the
    factories, so its widgets land in the base class's lists; the lists it
    declares itself shadow the base ones and are never written.
  - `Foo::CreateFoo` is a guarded constructor that yields null for a negative
    value.
  A form's dynamic class is the `FormKind` it was created with, and a widget is
  known by the class the factory instantiated.
*/
module FactoryMethod {
  import opened Wrappers

  /** The empty `Button` and `Edit` structs of the first form. */
  datatype Button = Button
  datatype Edit = Edit

  /** The first form: its methods are stubs with no frame, so they cannot
      change the form. */
  class UIForm {
    var buttons: seq<Button>
    var edits: seq<Edit>

    constructor ()
      ensures buttons == [] && edits == []
    {
      buttons := [];
      edits := [];
    }

    method AddButton()
      ensures unchanged(this)
    {
    }

    method AddEdit()
      ensures unchanged(this)
    {
    }

    method Show()
      ensures unchanged(this)
    {
    }

    method Close()
      ensures unchanged(this)
    {
    }
  }

  /** The concrete `IButton` and `IEdit` classes. */
  datatype ButtonKind = BaseButton | ModernButton
  datatype EditKind = BaseEdit | ModernEdit

  /** The dynamic class of a form: `BaseUIForm` or `ModernUIForm`. */
  datatype FormKind = BaseForm | ModernForm

  /** The virtual `makeButton`: the override of the form's dynamic class. */
  function MakeButton(form: FormKind): (b: ButtonKind)
    ensures b.ModernButton? <==> form.ModernForm?
    ensures b.BaseButton? <==> form.BaseForm?
  {
    match form
    case BaseForm => BaseButton
    case ModernForm => ModernButton
  }

  /** The virtual `makeEdit`: the override of the form's dynamic class. */
  function MakeEdit(form: FormKind): (e: EditKind)
    ensures e.ModernEdit? <==> form.ModernForm?
    ensures e.BaseEdit? <==> form.BaseForm?
  {
    match form
    case BaseForm => BaseEdit
    case ModernForm => ModernEdit
  }

  /** A `BaseUIForm`, or a `ModernUIForm` when `kind` is `ModernForm`.
      `buttons` and `edits` are `BaseUIForm`'s lists. `modernButtons` and
      `modernEdits` are the lists `ModernUIForm` declares again; they exist
      only for a `ModernForm`, and for a `BaseForm` they stand for nothing in
      the source and stay empty. */
  class BaseUIForm {
    const kind: FormKind
    var buttons: seq<ButtonKind>
    var edits: seq<EditKind>
    var modernButtons: seq<ButtonKind>
    var modernEdits: seq<EditKind>

    constructor (kind: FormKind)
      ensures this.kind == kind
      ensures buttons == [] && edits == [] && modernButtons == [] && modernEdits == []
    {
      this.kind := kind;
      buttons := [];
      edits := [];
      modernButtons := [];
      modernEdits := [];
    }

    /** `addButton`: `push_back(makeButton())` onto `BaseUIForm::m_buttons`. */
    method AddButton()
      modifies this
      ensures buttons == old(buttons) + [MakeButton(kind)]
      ensures edits == old(edits)
      ensures modernButtons == old(modernButtons) && modernEdits == old(modernEdits)
    {
      buttons := buttons + [MakeButton(kind)];
    }

    /** `addEdit`: `push_back(makeEdit())` onto `BaseUIForm::m_edits`. */
    method AddEdit()
      modifies this
      ensures edits == old(edits) + [MakeEdit(kind)]
      ensures buttons == old(buttons)
      ensures modernButtons == old(modernButtons) && modernEdits == old(modernEdits)
    {
      edits := edits + [MakeEdit(kind)];
    }

    /** `show` and `close` have empty bodies. */
    method Show()
      ensures unchanged(this)
    {
    }

    method Close()
      ensures unchanged(this)
    {
    }
  }

  /** A `ModernUIForm` given one button and one edit holds one modern widget of
      each in the base lists, while its own lists stay empty. */
  method ModernFormWidgets() returns (buttons: seq<ButtonKind>, edits: seq<EditKind>, shadowed: nat)
    ensures buttons == [ModernButton] && edits == [ModernEdit]
    ensures shadowed == 0
  {
    var form := new BaseUIForm(ModernForm);
    form.AddButton();
    form.AddEdit();
    buttons, edits := form.buttons, form.edits;
    shadowed := |form.modernButtons| + |form.modernEdits|;
  }

  /** A `Foo` and the value it was constructed with. */
  datatype Foo = Foo(val: int)

  /** `Foo::CreateFoo`: null for a negative value, otherwise a `Foo` holding it. */
  function CreateFoo(val: int): (r: Option<Foo>)
    ensures r.None? <==> val < 0
    ensures r.Some? ==> r.value.val == val
  {
    if val < 0 then None else Some(Foo(val))
  }
}
