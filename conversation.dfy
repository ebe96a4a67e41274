/**
 * The quote conversation: one session per sender, walked through a fixed
 * sequence of states, one field stored per accepted answer, and a
 * confirmation step that always ends the session and, on a yes, appends one
 * spreadsheet row. Outbound messages and appended rows are recorded as
 * traces; the e-mail and time validators, today's date, the clock and the
 * outcome of the spreadsheet call are parameters.
 */
module Conversation {
  import opened Wrappers
  import opened Text
  import opened Dates

  /** The sender's identity (the WhatsApp number the session is keyed by). */
  type Sender = string

  /** The values of `u["estado"]`; `Other` is any value with no branch in `procesar_flujo`. */
  datatype State =
    | Nombre | Correo | Pasajeros | FechaViaje | Origen | Destino
    | HoraIda | HoraVuelta | Telefono | Confirmar | Other

  /**
   * The session keys "Nombre", "Correo", "Pasajeros", "Fecha Viaje",
   * "Origen", "Destino", "Hora Ida", "Hora Regreso" and "Telefono".
   */
  datatype Field =
    | Name | Email | Passengers | TravelDate | Origin | Destination
    | DepartureTime | ReturnTime | Phone

  /** One entry of `usuarios`: the state and the fields collected so far. */
  datatype Session = Session(estado: State, fields: map<Field, string>)

  /** The states in collection order. */
  const Order: seq<State> :=
    [Nombre, Correo, Pasajeros, FechaViaje, Origen, Destino, HoraIda, HoraVuelta, Telefono, Confirmar]

  /** The field each collecting state stores, in the same order. */
  const Collected: seq<Field> :=
    [Name, Email, Passengers, TravelDate, Origin, Destination, DepartureTime, ReturnTime, Phone]

  /*
   * `Next`, `FieldOf` and `Position` below restate the order of `Order` and
   * `Collected` case by case. They are kept as matches, rather than computed
   * by indexing the two sequences, so that every branch of `Transition`
   * unfolds them in one step; `OrderFacts` proves that each of them agrees
   * with `Order` and `Collected` at every index.
   */

  /** The state an accepted answer leads to. */
  function Next(s: State): State {
    match s
    case Nombre => Correo
    case Correo => Pasajeros
    case Pasajeros => FechaViaje
    case FechaViaje => Origen
    case Origen => Destino
    case Destino => HoraIda
    case HoraIda => HoraVuelta
    case HoraVuelta => Telefono
    case Telefono => Confirmar
    case _ => s
  }

  /** The field a state stores, for the nine collecting states. */
  function FieldOf(s: State): Option<Field> {
    match s
    case Nombre => Some(Name)
    case Correo => Some(Email)
    case Pasajeros => Some(Passengers)
    case FechaViaje => Some(TravelDate)
    case Origen => Some(Origin)
    case Destino => Some(Destination)
    case HoraIda => Some(DepartureTime)
    case HoraVuelta => Some(ReturnTime)
    case Telefono => Some(Phone)
    case _ => None
  }

  /** The texts `procesar_flujo` sends through `enviar_texto`. */
  datatype Prompt =
    | AskEmail | InvalidEmail | AskPassengers | AskTravelDate | PastDate | BadDateFormat
    | AskOrigin | AskDestination | AskDepartureTime | InvalidDepartureTime
    | AskReturnTime | InvalidReturnTime | AskPhone | RequestReceived | MayCorrect

  /** One call to a messaging collaborator. */
  datatype Event =
    | SendText(to: Sender, prompt: Prompt)   // enviar_texto
    | ShowSummary(to: Sender)                // mostrar_resumen
    | SendConfirmation(to: Sender)           // enviar_confirmacion
    | NotifyByEmail(session: Session)        // enviar_correo_notificacion
    | MainMenu(to: Sender)                   // menu_principal

  /** One spreadsheet row: the timestamp, then the nine fields. */
  type Row = seq<string>

  /**
   * What one call sees of the outside world: today's date, the clock
   * printed as `%d-%m-%Y %H:%M:%S`, and whether `sheet.append_row` succeeds.
   */
  datatype Env = Env(today: Date, timestamp: string, sheetOk: bool)

  /** The effect of one call: the session afterwards (`None` once popped), the messages sent, the row appended. */
  datatype Step = Step(session: Option<Session>, events: seq<Event>, row: Option<Row>)

  /** The answers `confirmar` takes as a yes. */
  const Affirmative: seq<string> := ["si", "sí", "confirmar_si"]

  predicate Complete(f: map<Field, string>) {
    Name in f && Email in f && Passengers in f && TravelDate in f && Origin in f
    && Destination in f && DepartureTime in f && ReturnTime in f && Phone in f
  }

  /**
   * The row `sheet.append_row` receives, if building it succeeds: a missing
   * key raises `KeyError` inside the same `try`, and that is swallowed too.
   */
  function SheetRow(u: Session, timestamp: string): (r: Option<Row>)
    ensures r.Some? <==> Complete(u.fields)
    ensures r.Some? ==> |r.value| == 10 && r.value[0] == timestamp
                        && forall i :: 0 <= i < 9 ==> r.value[i + 1] == u.fields[Collected[i]]
  {
    if Complete(u.fields) then
      var f := u.fields;
      Some([timestamp, f[Name], f[Email], f[Passengers], f[TravelDate], f[Origin],
            f[Destination], f[DepartureTime], f[ReturnTime], f[Phone]])
    else None
  }

  /** Whether the answer is accepted in a collecting state. */
  predicate Accepts(s: State, texto: string, emailValido: string -> bool,
                    horaValida: string -> bool, today: Date) {
    match s
    case Correo => emailValido(texto)
    case FechaViaje => ParseDate(texto).Some? && !Before(ParseDate(texto).value, today)
    case HoraIda => horaValida(texto)
    case HoraVuelta => horaValida(texto)
    case Confirmar => false
    case Other => false
    case _ => true
  }

  /** The value an accepted answer stores: the date re-printed as DD-MM-YYYY, anything else verbatim. */
  function Stored(s: State, texto: string): (v: string)
    ensures s != FechaViaje ==> v == texto
  {
    if s == FechaViaje && ParseDate(texto).Some? then FormatDate(ParseDate(texto).value) else texto
  }

  /** A stored date reads back as the date the answer gave. */
  lemma StoredReparses(texto: string)
    requires ParseDate(texto).Some?
    ensures ParseDate(Stored(FechaViaje, texto)) == ParseDate(texto)
  {
    ParseFormat(ParseDate(texto).value);
  }

  /** The `fecha_viaje` branch: a DD-MM-YYYY date not before today advances, anything else is answered with a warning. */
  function DateStep(to: Sender, u: Session, texto: string, env: Env): Step
    requires u.estado == FechaViaje
  {
    match ParseDate(texto)
    case None => Step(Some(u), [SendText(to, BadDateFormat)], None)
    case Some(fecha) =>
      if Before(fecha, env.today) then Step(Some(u), [SendText(to, PastDate)], None)
      else Step(Some(Session(Origen, u.fields[TravelDate := FormatDate(fecha)])), [SendText(to, AskOrigin)], None)
  }

  /** The `confirmar` branch: the session ends either way; an affirmative answer also tries the sheet. */
  function ConfirmStep(to: Sender, u: Session, textoLower: string, env: Env): Step
    requires u.estado == Confirmar
  {
    if textoLower in Affirmative then
      Step(None, [SendText(to, RequestReceived), NotifyByEmail(u), MainMenu(to)],
           if env.sheetOk then SheetRow(u, env.timestamp) else None)
    else Step(None, [SendText(to, MayCorrect), MainMenu(to)], None)
  }

  /** `procesar_flujo` for one session, as a value. */
  function Transition(to: Sender, u: Session, texto: string, textoLower: string,
                      emailValido: string -> bool, horaValida: string -> bool, env: Env): Step
  {
    match u.estado
    case Nombre =>
      Step(Some(Session(Correo, u.fields[Name := texto])), [SendText(to, AskEmail)], None)
    case Correo =>
      if !emailValido(texto) then Step(Some(u), [SendText(to, InvalidEmail)], None)
      else Step(Some(Session(Pasajeros, u.fields[Email := texto])), [SendText(to, AskPassengers)], None)
    case Pasajeros =>
      Step(Some(Session(FechaViaje, u.fields[Passengers := texto])), [SendText(to, AskTravelDate)], None)
    case FechaViaje => DateStep(to, u, texto, env)
    case Origen =>
      Step(Some(Session(Destino, u.fields[Origin := texto])), [SendText(to, AskDestination)], None)
    case Destino =>
      Step(Some(Session(HoraIda, u.fields[Destination := texto])), [SendText(to, AskDepartureTime)], None)
    case HoraIda =>
      if !horaValida(texto) then Step(Some(u), [SendText(to, InvalidDepartureTime)], None)
      else Step(Some(Session(HoraVuelta, u.fields[DepartureTime := texto])), [SendText(to, AskReturnTime)], None)
    case HoraVuelta =>
      if !horaValida(texto) then Step(Some(u), [SendText(to, InvalidReturnTime)], None)
      else Step(Some(Session(Telefono, u.fields[ReturnTime := texto])), [SendText(to, AskPhone)], None)
    case Telefono =>
      Step(Some(Session(Confirmar, u.fields[Phone := texto])), [ShowSummary(to), SendConfirmation(to)], None)
    case Confirmar => ConfirmStep(to, u, textoLower, env)
    case Other => Step(Some(u), [], None)
  }

  /**
   * The shape of every call: only `confirmar` ends the session or writes a
   * row, a session that goes on is either unchanged or one state further,
   * and every state but `Other` sends at least one message.
   */
  lemma TransitionShape(to: Sender, u: Session, texto: string, textoLower: string,
                        emailValido: string -> bool, horaValida: string -> bool, env: Env)
    ensures var r := Transition(to, u, texto, textoLower, emailValido, horaValida, env);
            && (r.session.None? <==> u.estado == Confirmar)
            && (r.row.Some? ==> u.estado == Confirmar)
            && (r.session.Some? ==> r.session.value == u || r.session.value.estado == Next(u.estado))
            && (r.events == [] <==> u.estado == Other)
  {
  }

  /** The fields every state before `s` has stored. */
  function FieldsBefore(s: State): set<Field> {
    var k := if s == Other then 0 else Position(s);
    set i | 0 <= i < k && i < |Collected| :: Collected[i]
  }

  function Position(s: State): nat {
    match s
    case Nombre => 0
    case Correo => 1
    case Pasajeros => 2
    case FechaViaje => 3
    case Origen => 4
    case Destino => 5
    case HoraIda => 6
    case HoraVuelta => 7
    case Telefono => 8
    case Confirmar => 9
    case Other => 0
  }

  /** A session holds at least the fields of every state it has passed. */
  predicate WellFormed(u: Session) {
    FieldsBefore(u.estado) <= u.fields.Keys
  }

  /** The case-by-case definitions agree with `Order` and `Collected` at each index. */
  lemma OrderFacts(k: nat)
    requires k < 9
    ensures Order[k] != Other && Position(Order[k]) == k
    ensures Next(Order[k]) == Order[k + 1] && FieldOf(Order[k]) == Some(Collected[k])
  {
  }

  /**
   * In a collecting state an accepted answer stores exactly its own field
   * and advances one state; a rejected one changes nothing. No row is written.
   */
  lemma CollectingStep(to: Sender, u: Session, texto: string, textoLower: string,
                       emailValido: string -> bool, horaValida: string -> bool, env: Env)
    requires FieldOf(u.estado).Some?
    ensures Transition(to, u, texto, textoLower, emailValido, horaValida, env).row == None
    ensures Accepts(u.estado, texto, emailValido, horaValida, env.today) ==>
              Transition(to, u, texto, textoLower, emailValido, horaValida, env).session
              == Some(Session(Next(u.estado), u.fields[FieldOf(u.estado).value := Stored(u.estado, texto)]))
    ensures !Accepts(u.estado, texto, emailValido, horaValida, env.today) ==>
              Transition(to, u, texto, textoLower, emailValido, horaValida, env).session == Some(u)
  {
  }

  /**
   * A rejected e-mail, date or time leaves the session exactly as it was and
   * sends one warning to the sender.
   */
  lemma RejectedInputChangesNothing(to: Sender, u: Session, texto: string, textoLower: string,
                                    emailValido: string -> bool, horaValida: string -> bool, env: Env)
    requires u.estado in {Correo, FechaViaje, HoraIda, HoraVuelta}
    requires !Accepts(u.estado, texto, emailValido, horaValida, env.today)
    ensures var r := Transition(to, u, texto, textoLower, emailValido, horaValida, env);
            r.session == Some(u) && r.row == None
            && |r.events| == 1 && r.events[0].SendText? && r.events[0].to == to
            && r.events[0].prompt in {InvalidEmail, BadDateFormat, PastDate, InvalidDepartureTime, InvalidReturnTime}
  {
  }

  /**
   * Name, passengers, origin, destination and phone take any text verbatim,
   * write only their own field and advance one state.
   */
  lemma FreeTextAccepted(to: Sender, u: Session, texto: string, textoLower: string,
                         emailValido: string -> bool, horaValida: string -> bool, env: Env)
    requires u.estado in {Nombre, Pasajeros, Origen, Destino, Telefono}
    ensures Transition(to, u, texto, textoLower, emailValido, horaValida, env).session
            == Some(Session(Next(u.estado), u.fields[FieldOf(u.estado).value := texto]))
  {
  }

  /** A travel date equal to today is accepted and stored re-printed. */
  lemma TodayAccepted(to: Sender, u: Session, texto: string, textoLower: string,
                      emailValido: string -> bool, horaValida: string -> bool, env: Env)
    requires u.estado == FechaViaje && ParseDate(texto) == Some(env.today)
    ensures Transition(to, u, texto, textoLower, emailValido, horaValida, env).session
            == Some(Session(Origen, u.fields[TravelDate := FormatDate(env.today)]))
  {
  }

  /** A travel date strictly before today is rejected with the session unchanged. */
  lemma PastDateRejected(to: Sender, u: Session, texto: string, textoLower: string,
                         emailValido: string -> bool, horaValida: string -> bool, env: Env)
    requires u.estado == FechaViaje && ParseDate(texto).Some? && Before(ParseDate(texto).value, env.today)
    ensures Transition(to, u, texto, textoLower, emailValido, horaValida, env)
            == Step(Some(u), [SendText(to, PastDate)], None)
  {
  }

  /** The stored "Fecha Viaje" reads back as the date the answer gave. */
  lemma StoredDateReparses(to: Sender, u: Session, texto: string, textoLower: string,
                           emailValido: string -> bool, horaValida: string -> bool, env: Env)
    requires u.estado == FechaViaje && Accepts(FechaViaje, texto, emailValido, horaValida, env.today)
    ensures var r := Transition(to, u, texto, textoLower, emailValido, horaValida, env);
            r.session.Some? && TravelDate in r.session.value.fields
            && ParseDate(r.session.value.fields[TravelDate]) == ParseDate(texto)
  {
    ParseFormat(ParseDate(texto).value);
  }

  /**
   * A yes in `confirmar` appends exactly one row, timestamp first and then
   * the nine fields in order, when the fields are all there and the
   * spreadsheet call succeeds; the session is removed in every case.
   */
  lemma ConfirmYes(to: Sender, u: Session, texto: string, textoLower: string,
                   emailValido: string -> bool, horaValida: string -> bool, env: Env)
    requires u.estado == Confirmar && textoLower in Affirmative
    ensures var r := Transition(to, u, texto, textoLower, emailValido, horaValida, env);
            r.session == None
            && r.events == [SendText(to, RequestReceived), NotifyByEmail(u), MainMenu(to)]
            && (r.row.Some? <==> env.sheetOk && Complete(u.fields))
            && (r.row.Some? ==> r.row.value == [env.timestamp] + seq(9, i requires 0 <= i < 9 => u.fields[Collected[i]]))
  {
    var r := Transition(to, u, texto, textoLower, emailValido, horaValida, env);
    if r.row.Some? {
      assert r.row.value == [env.timestamp] + seq(9, i requires 0 <= i < 9 => u.fields[Collected[i]]);
    }
  }

  /** Any other answer in `confirmar` appends no row and still removes the session. */
  lemma ConfirmOther(to: Sender, u: Session, texto: string, textoLower: string,
                     emailValido: string -> bool, horaValida: string -> bool, env: Env)
    requires u.estado == Confirmar && textoLower !in Affirmative
    ensures Transition(to, u, texto, textoLower, emailValido, horaValida, env)
            == Step(None, [SendText(to, MayCorrect), MainMenu(to)], None)
  {
  }

  /** A failing spreadsheet call is swallowed: the session is still removed and the menu still sent. */
  lemma SheetFailureSwallowed(to: Sender, u: Session, texto: string, textoLower: string,
                              emailValido: string -> bool, horaValida: string -> bool, env: Env)
    requires u.estado == Confirmar && !env.sheetOk
    ensures var r := Transition(to, u, texto, textoLower, emailValido, horaValida, env);
            r.session == None && r.row == None && r.events[|r.events| - 1] == MainMenu(to)
  {
  }

  /**
   * Every call keeps a well-formed session well-formed, and a yes on a
   * well-formed session in `confirmar` with a working spreadsheet always
   * produces its row (no `KeyError` arises).
   */
  lemma TransitionKeepsWellFormed(to: Sender, u: Session, texto: string, textoLower: string,
                                  emailValido: string -> bool, horaValida: string -> bool, env: Env)
    requires WellFormed(u)
    ensures var r := Transition(to, u, texto, textoLower, emailValido, horaValida, env);
            r.session.Some? ==> WellFormed(r.session.value)
    ensures u.estado == Confirmar && textoLower in Affirmative && env.sheetOk ==>
              Transition(to, u, texto, textoLower, emailValido, horaValida, env).row.Some?
  {
    var r := Transition(to, u, texto, textoLower, emailValido, horaValida, env);
    if u.estado != Other && u.estado != Confirmar {
      var k := Position(u.estado);
      OrderFacts(k);
      assert Order[k] == u.estado;
      CollectingStep(to, u, texto, textoLower, emailValido, horaValida, env);
      if Accepts(u.estado, texto, emailValido, horaValida, env.today) {
        AdvanceKeepsWellFormed(u, k, Stored(u.estado, texto));
      }
    }
    if u.estado == Confirmar {
      FieldsBeforeConfirmComplete(u.fields);
    }
  }

  /** Having passed every collecting state means having all nine fields. */
  lemma FieldsBeforeConfirmComplete(f: map<Field, string>)
    requires FieldsBefore(Confirmar) <= f.Keys
    ensures Complete(f)
  {
    assert Collected[0] in FieldsBefore(Confirmar) && Collected[1] in FieldsBefore(Confirmar);
    assert Collected[2] in FieldsBefore(Confirmar) && Collected[3] in FieldsBefore(Confirmar);
    assert Collected[4] in FieldsBefore(Confirmar) && Collected[5] in FieldsBefore(Confirmar);
    assert Collected[6] in FieldsBefore(Confirmar) && Collected[7] in FieldsBefore(Confirmar);
    assert Collected[8] in FieldsBefore(Confirmar);
  }

  /** Every session of the table is well-formed. */
  ghost predicate TableWellFormed(m: map<Sender, Session>) {
    forall s :: s in m ==> WellFormed(m[s])
  }

  /** The table after one call for `to`: the new session stored, or the entry popped. */
  function Updated(m: map<Sender, Session>, to: Sender, r: Step): map<Sender, Session> {
    if r.session.Some? then m[to := r.session.value] else m - {to}
  }

  /** One call keeps a well-formed table well-formed. */
  lemma TableKeepsWellFormed(m: map<Sender, Session>, to: Sender, texto: string, textoLower: string,
                             emailValido: string -> bool, horaValida: string -> bool, env: Env)
    requires to in m && TableWellFormed(m)
    ensures TableWellFormed(Updated(m, to, Transition(to, m[to], texto, textoLower, emailValido, horaValida, env)))
  {
    TransitionKeepsWellFormed(to, m[to], texto, textoLower, emailValido, horaValida, env);
  }

  /**
   * The sessions a sequence of answers passes through, stopping when the session ends.
   * Each answer's `texto_lower` is taken to be its lower-cased text; the caller that computes
   * it is not part of this model, and the choice only matters in `confirmar`, to which the
   * run lemmas never give an answer.
   */
  function Run(to: Sender, u: Session, inputs: seq<string>, emailValido: string -> bool,
               horaValida: string -> bool, env: Env): seq<Session>
    decreases |inputs|
  {
    if inputs == [] then []
    else
      var r := Transition(to, u, inputs[0], Lower(inputs[0]), emailValido, horaValida, env);
      match r.session
      case None => []
      case Some(s) => [s] + Run(to, s, inputs[1..], emailValido, horaValida, env)
  }

  /** The session that storing `v` in the k-th state leads to. */
  function Advance(u: Session, k: nat, v: string): Session
    requires k < 9
  {
    Session(Order[k + 1], u.fields[Collected[k] := v])
  }

  /** Storing the k-th field and moving on keeps a well-formed session well-formed. */
  lemma AdvanceKeepsWellFormed(u: Session, k: nat, v: string)
    requires k < 9 && u.estado == Order[k] && WellFormed(u)
    ensures WellFormed(Advance(u, k, v))
  {
    var s := Advance(u, k, v);
    OrderFacts(k);
    if k < 8 {
      OrderFacts(k + 1);
    }
    assert Position(s.estado) == k + 1;
    forall f | f in FieldsBefore(s.estado) ensures f in s.fields {
      var i :| 0 <= i < k + 1 && i < |Collected| && Collected[i] == f;
      if i < k {
        assert f in FieldsBefore(u.estado);
      }
    }
  }

  /** The values that answers given from the k-th state on store. */
  function StoredAnswers(inputs: seq<string>, k: nat): (vals: seq<string>)
    requires k + |inputs| <= 9
    ensures |vals| == |inputs|
    decreases |inputs|
  {
    if inputs == [] then [] else [Stored(Order[k], inputs[0])] + StoredAnswers(inputs[1..], k + 1)
  }

  /** One accepted answer in the k-th state: `Run` continues from `Advance`. */
  lemma RunAccepted(to: Sender, u: Session, inputs: seq<string>, k: nat,
                    emailValido: string -> bool, horaValida: string -> bool, env: Env)
    requires k < 9 && u.estado == Order[k] && inputs != []
    requires Accepts(Order[k], inputs[0], emailValido, horaValida, env.today)
    ensures var s := Advance(u, k, Stored(Order[k], inputs[0]));
            Run(to, u, inputs, emailValido, horaValida, env) == [s] + Run(to, s, inputs[1..], emailValido, horaValida, env)
  {
    OrderFacts(k);
    CollectingStep(to, u, inputs[0], Lower(inputs[0]), emailValido, horaValida, env);
  }

  /** The answers after the first are accepted from the next state on. */
  lemma AcceptedTail(inputs: seq<string>, k: nat, emailValido: string -> bool, horaValida: string -> bool, today: Date)
    requires k < 8 && |inputs| == 9 - k
    requires forall i :: 0 <= i < |inputs| ==> Accepts(Order[k + i], inputs[i], emailValido, horaValida, today)
    ensures forall i :: 0 <= i < |inputs[1..]| ==> Accepts(Order[k + 1 + i], inputs[1..][i], emailValido, horaValida, today)
  {
    forall i | 0 <= i < |inputs[1..]|
      ensures Accepts(Order[k + 1 + i], inputs[1..][i], emailValido, horaValida, today)
    {
      assert inputs[1..][i] == inputs[i + 1];
      assert Order[k + 1 + i] == Order[k + (i + 1)];
    }
  }

  /** The sessions that storing `vals` from the k-th state on leads through, written without `Transition`. */
  function AcceptedPath(u: Session, vals: seq<string>, k: nat): seq<Session>
    requires k + |vals| <= 9
    decreases |vals|
  {
    if vals == [] then []
    else
      var s := Advance(u, k, vals[0]);
      [s] + AcceptedPath(s, vals[1..], k + 1)
  }

  /** From the k-th state, a run of accepted answers up to `confirmar` is exactly `AcceptedPath`. */
  lemma {:induction false} RunFollowsAcceptedPath(to: Sender, u: Session, inputs: seq<string>, k: nat,
                                                  emailValido: string -> bool, horaValida: string -> bool, env: Env)
    requires k < 9 && u.estado == Order[k] && |inputs| == 9 - k
    requires forall i :: 0 <= i < |inputs| ==> Accepts(Order[k + i], inputs[i], emailValido, horaValida, env.today)
    ensures Run(to, u, inputs, emailValido, horaValida, env) == AcceptedPath(u, StoredAnswers(inputs, k), k)
    decreases 9 - k
  {
    assert Accepts(Order[k], inputs[0], emailValido, horaValida, env.today) by {
      assert Order[k + 0] == Order[k];
    }
    var s := Advance(u, k, Stored(Order[k], inputs[0]));
    if k < 8 {
      AcceptedTail(inputs, k, emailValido, horaValida, env.today);
      RunFollowsAcceptedPath(to, s, inputs[1..], k + 1, emailValido, horaValida, env);
    }
    RunAcceptedPathStep(to, u, inputs, k, emailValido, horaValida, env);
  }

  /** One step of `RunFollowsAcceptedPath`: an accepted first answer, and the rest of the run following the path. */
  lemma RunAcceptedPathStep(to: Sender, u: Session, inputs: seq<string>, k: nat,
                            emailValido: string -> bool, horaValida: string -> bool, env: Env)
    requires k < 9 && u.estado == Order[k] && |inputs| == 9 - k
    requires Accepts(Order[k], inputs[0], emailValido, horaValida, env.today)
    requires var s := Advance(u, k, Stored(Order[k], inputs[0]));
             k < 8 ==> Run(to, s, inputs[1..], emailValido, horaValida, env)
                       == AcceptedPath(s, StoredAnswers(inputs[1..], k + 1), k + 1)
    ensures Run(to, u, inputs, emailValido, horaValida, env) == AcceptedPath(u, StoredAnswers(inputs, k), k)
  {
    RunAccepted(to, u, inputs, k, emailValido, horaValida, env);
    var vals := StoredAnswers(inputs, k);
    assert vals[0] == Stored(Order[k], inputs[0]) && vals[1..] == StoredAnswers(inputs[1..], k + 1);
    if k == 8 {
      assert inputs[1..] == [];
    }
  }

  /** Along `AcceptedPath`, the i-th session is in the state after the (k+i)-th. */
  lemma {:induction false} AcceptedPathStates(u: Session, vals: seq<string>, k: nat)
    requires k + |vals| <= 9
    ensures var w := AcceptedPath(u, vals, k);
            |w| == |vals| && forall i :: 0 <= i < |w| ==> w[i].estado == Order[k + i + 1]
    decreases |vals|
  {
    if vals != [] {
      var s := Advance(u, k, vals[0]);
      AcceptedPathStates(s, vals[1..], k + 1);
      var w' := AcceptedPath(s, vals[1..], k + 1);
      forall i | 1 <= i < |vals| ensures ([s] + w')[i].estado == Order[k + i + 1] {
        assert ([s] + w')[i] == w'[i - 1];
      }
    }
  }

  /** Along `AcceptedPath` from a well-formed session, the last session is well-formed. */
  lemma {:induction false} AcceptedPathWellFormed(u: Session, vals: seq<string>, k: nat)
    requires k + |vals| <= 9 && vals != [] && u.estado == Order[k] && WellFormed(u)
    ensures var w := AcceptedPath(u, vals, k);
            |w| == |vals| && WellFormed(w[|w| - 1])
    decreases |vals|
  {
    var s := Advance(u, k, vals[0]);
    AdvanceKeepsWellFormed(u, k, vals[0]);
    if |vals| == 1 {
      assert AcceptedPath(u, vals, k) == [s];
    } else {
      AcceptedPathWellFormed(s, vals[1..], k + 1);
      var w' := AcceptedPath(s, vals[1..], k + 1);
      assert AcceptedPath(u, vals, k)[|vals| - 1] == w'[|vals| - 2];
    }
  }

  /**
   * From a fresh session in `nombre`, nine accepted answers visit
   * `correo` ... `confirmar` in order and leave every field filled.
   */
  lemma NineStepsToConfirm(to: Sender, inputs: seq<string>, emailValido: string -> bool,
                           horaValida: string -> bool, env: Env)
    requires |inputs| == 9
    requires forall i :: 0 <= i < 9 ==> Accepts(Order[i], inputs[i], emailValido, horaValida, env.today)
    ensures var w := Run(to, Session(Nombre, map[]), inputs, emailValido, horaValida, env);
            |w| == 9 && (forall i :: 0 <= i < 9 ==> w[i].estado == Order[i + 1])
            && w[8].estado == Confirmar && Complete(w[8].fields)
  {
    var u := Session(Nombre, map[]);
    var vals := StoredAnswers(inputs, 0);
    RunFollowsAcceptedPath(to, u, inputs, 0, emailValido, horaValida, env);
    AcceptedPathStates(u, vals, 0);
    assert WellFormed(u);
    AcceptedPathWellFormed(u, vals, 0);
    var w := AcceptedPath(u, vals, 0);
    FieldsBeforeConfirmComplete(w[8].fields);
  }

  /**
   * The session table `usuarios`, with the traces of the messages sent and
   * the rows appended, and the two validators the source imports.
   */
  class QuoteBot {
    var usuarios: map<Sender, Session>
    ghost var outbox: seq<Event>
    ghost var sheet: seq<Row>
    const emailValido: string -> bool
    const horaValida: string -> bool

    constructor (sessions: map<Sender, Session>, emailValido: string -> bool, horaValida: string -> bool)
      ensures usuarios == sessions && outbox == [] && sheet == []
      ensures this.emailValido == emailValido && this.horaValida == horaValida
    {
      usuarios := sessions;
      outbox := [];
      sheet := [];
      this.emailValido := emailValido;
      this.horaValida := horaValida;
    }

    /**
     * `procesar_flujo(to, texto, texto_lower)`: updates the sender's session
     * in place, or pops it in `confirmar`, and records what was sent and
     * appended.
     */
    method ProcesarFlujo(to: Sender, texto: string, textoLower: string, env: Env)
      requires to in usuarios
      modifies this
      ensures var r := Transition(to, old(usuarios[to]), texto, textoLower, emailValido, horaValida, env);
              && usuarios == Updated(old(usuarios), to, r)
              && outbox == old(outbox) + r.events
              && sheet == old(sheet) + (if r.row.Some? then [r.row.value] else [])
      ensures old(TableWellFormed(usuarios)) ==> TableWellFormed(usuarios)
    {
      var u := usuarios[to];
      ghost var r := Transition(to, u, texto, textoLower, emailValido, horaValida, env);
      if TableWellFormed(usuarios) {
        TableKeepsWellFormed(usuarios, to, texto, textoLower, emailValido, horaValida, env);
      }
      match u.estado {
        case Nombre =>
          usuarios := usuarios[to := u.(estado := Correo, fields := u.fields[Name := texto])];
          outbox := outbox + [SendText(to, AskEmail)];
        case Correo =>
          if !emailValido(texto) {
            outbox := outbox + [SendText(to, InvalidEmail)];
            return;
          }
          usuarios := usuarios[to := u.(estado := Pasajeros, fields := u.fields[Email := texto])];
          outbox := outbox + [SendText(to, AskPassengers)];
        case Pasajeros =>
          usuarios := usuarios[to := u.(estado := FechaViaje, fields := u.fields[Passengers := texto])];
          outbox := outbox + [SendText(to, AskTravelDate)];
        case FechaViaje =>
          AnswerDate(to, u, texto, env);
        case Origen =>
          usuarios := usuarios[to := u.(estado := Destino, fields := u.fields[Origin := texto])];
          outbox := outbox + [SendText(to, AskDestination)];
        case Destino =>
          usuarios := usuarios[to := u.(estado := HoraIda, fields := u.fields[Destination := texto])];
          outbox := outbox + [SendText(to, AskDepartureTime)];
        case HoraIda =>
          if !horaValida(texto) {
            outbox := outbox + [SendText(to, InvalidDepartureTime)];
            return;
          }
          usuarios := usuarios[to := u.(estado := HoraVuelta, fields := u.fields[DepartureTime := texto])];
          outbox := outbox + [SendText(to, AskReturnTime)];
        case HoraVuelta =>
          if !horaValida(texto) {
            outbox := outbox + [SendText(to, InvalidReturnTime)];
            return;
          }
          usuarios := usuarios[to := u.(estado := Telefono, fields := u.fields[ReturnTime := texto])];
          outbox := outbox + [SendText(to, AskPhone)];
        case Telefono =>
          usuarios := usuarios[to := u.(estado := Confirmar, fields := u.fields[Phone := texto])];
          outbox := outbox + [ShowSummary(to), SendConfirmation(to)];
        case Confirmar =>
          AnswerConfirm(to, u, textoLower, env);
        case Other =>
      }
    }

    /** The `fecha_viaje` branch of `procesar_flujo`. */
    method AnswerDate(to: Sender, u: Session, texto: string, env: Env)
      requires to in usuarios && usuarios[to] == u && u.estado == FechaViaje
      modifies this
      ensures var r := DateStep(to, u, texto, env);
              && usuarios == Updated(old(usuarios), to, r)
              && outbox == old(outbox) + r.events
              && sheet == old(sheet)
    {
      var parsed := ParseDate(texto);
      if parsed.None? {
        outbox := outbox + [SendText(to, BadDateFormat)];
        return;
      }
      var fecha := parsed.value;
      if Before(fecha, env.today) {
        outbox := outbox + [SendText(to, PastDate)];
        return;
      }
      usuarios := usuarios[to := u.(estado := Origen, fields := u.fields[TravelDate := FormatDate(fecha)])];
      outbox := outbox + [SendText(to, AskOrigin)];
    }

    /** The `confirmar` branch of `procesar_flujo`: the session is popped either way. */
    method AnswerConfirm(to: Sender, u: Session, textoLower: string, env: Env)
      requires to in usuarios && usuarios[to] == u && u.estado == Confirmar
      modifies this
      ensures var r := ConfirmStep(to, u, textoLower, env);
              && usuarios == Updated(old(usuarios), to, r)
              && outbox == old(outbox) + r.events
              && sheet == old(sheet) + (if r.row.Some? then [r.row.value] else [])
    {
      if textoLower in Affirmative {
        // A missing key and a failing append both end in the swallowed
        // exception, so no row is recorded; the acknowledgement, the
        // notification, the pop and the menu happen in every case. The order
        // of the append relative to the messages is not recorded: the two
        // traces are kept apart.
        var row := SheetRow(u, env.timestamp);
        if env.sheetOk && row.Some? {
          sheet := sheet + [row.value];
        }
        usuarios := usuarios - {to};
        outbox := outbox + [SendText(to, RequestReceived), NotifyByEmail(u), MainMenu(to)];
      } else {
        usuarios := usuarios - {to};
        outbox := outbox + [SendText(to, MayCorrect), MainMenu(to)];
      }
    }
  }
}
