/** The collectors page: how a stored `estado` is read as active or inactive, in the
    table badge and in the edit form, the new-collector form, and the body sent on save. */
module CobradoresPage {
  import opened Wrappers

  /** A collector as listed; `estado` arrives as 'A', '1', 1 or anything else. */
  datatype Cobrador = Cobrador(id: string, codigo: string, cobrador: string, estado: JsValue, periodo: string)

  /** The form's fields; `estado` is always '1' or '0'. */
  datatype Form = Form(codigo: string, cobrador: string, estado: string, periodo: string)

  /** The body posted on save: the form plus an id that is present only when editing. */
  datatype SubmitBody = SubmitBody(codigo: string, cobrador: string, estado: string, periodo: string, id: Option<string>)

  /** `estado === 'A' || estado === '1' || estado === 1`. */
  predicate ActiveEstado(estado: JsValue)
  {
    estado == Str("A") || estado == Str("1") || estado == Num(1)
  }

  /** The table's badge. */
  function BadgeText(estado: JsValue): string
  {
    if ActiveEstado(estado) then "Activo" else "Inactivo"
  }

  /** `handleEdit`: the form for an existing collector. */
  function EditForm(c: Cobrador): (f: Form)
    ensures f.estado == "1" || f.estado == "0"
    ensures f.codigo == c.codigo && f.cobrador == c.cobrador && f.periodo == c.periodo
  {
    Form(c.codigo, c.cobrador, if ActiveEstado(c.estado) then "1" else "0", c.periodo)
  }

  /** `handleNew`. */
  const NEW_FORM: Form := Form("", "", "1", "012")

  /** `handleSubmit`'s body: `{ ...formData, id: editingCobrador?.id }`. */
  function Submit(f: Form, editing: Option<Cobrador>): (b: SubmitBody)
    ensures b.id.Some? <==> editing.Some?
    ensures editing.Some? ==> b.id == Some(editing.value.id)
    ensures b.codigo == f.codigo && b.cobrador == f.cobrador && b.estado == f.estado && b.periodo == f.periodo
  {
    SubmitBody(f.codigo, f.cobrador, f.estado, f.periodo, if editing.Some? then Some(editing.value.id) else None)
  }

  /** The edit form and the badge read `estado` alike: the form says '1' exactly when
      the badge says "Activo", for the three active spellings and nothing else. */
  lemma EstadoAgrees(c: Cobrador)
    ensures EditForm(c).estado == "1" <==> BadgeText(c.estado) == "Activo"
    ensures EditForm(c).estado == "1" <==> c.estado in {Str("A"), Str("1"), Num(1)}
  {
    assert "Activo" != "Inactivo";
    assert "1" != "0";
  }

  /** Saving an edited collector without touching the form sends its fields back with
      `estado` normalised to '1' or '0' and its id; reading the sent `estado` again gives
      the same form. */
  lemma EditRoundTrip(c: Cobrador)
    ensures var b := Submit(EditForm(c), Some(c));
      && b.id == Some(c.id) && b.codigo == c.codigo && b.cobrador == c.cobrador && b.periodo == c.periodo
      && EditForm(c.(estado := Str(b.estado))) == EditForm(c)
  {
    assert "1" != "0";
  }

  /** A new collector starts empty, active and in period '012', and is sent without an id. */
  lemma NewFormDefaults()
    ensures NEW_FORM.codigo == "" && NEW_FORM.cobrador == ""
    ensures NEW_FORM.estado == "1" && NEW_FORM.periodo == "012"
    ensures Submit(NEW_FORM, None).id.None?
  {
  }
}
