/**
 * The pure parts of the player edit dialog (src/components/Modal/PlayerModal.tsx):
 * the `playerSchema` validation rule, the `patents.find` lookup applied when a
 * loaded player fills the form, and the projection of the form into the row
 * sent to `upsert`.
 */
module PlayerForm {
  import opened Common

  /** One entry of the patents asset: `{id, name}`. */
  datatype Patent = Patent(id: string, name: string)

  /** A player as the remote service returns it: `patent` is the raw patent id. */
  datatype PlayerRecord = PlayerRecord(
    id: Option<string>,
    userId: Option<string>,
    name: Option<string>,
    username: Option<string>,
    patent: Option<string>,
    active: Option<bool>)

  /** The form values (`Partial<IPlayer>`): `patent` holds the selected patent object. */
  datatype Draft = Draft(
    id: Option<string>,
    userId: Option<string>,
    name: Option<string>,
    username: Option<string>,
    patent: Option<Patent>,
    active: Option<bool>)

  /** The values `reset({})` leaves in the form: every field undefined. */
  const EmptyDraft := Draft(None, None, None, None, None, None)

  /** The seed given to `onOpenModal` (`IRecordModal`): an optional id and owner. */
  datatype RecordModal = RecordModal(id: Option<string>, userId: Option<string>)

  /** `recordModal?.id` is truthy: the dialog edits an existing player. */
  predicate HasId(seed: Option<RecordModal>)
  {
    seed.Some? && Truthy(seed.value.id)
  }

  /** `recordModal?.userId`. */
  function SeedUserId(seed: Option<RecordModal>): Option<string>
  {
    if seed.Some? then seed.value.userId else None
  }

  // ----- Validation (`playerSchema`) -----

  /** The fields `playerSchema` constrains; a field in the error set is invalid. */
  datatype Field = Name | Username | Active | PatentField

  /** `yup.string().min(3).required()`: a present string of length at least 3. */
  predicate LongEnough(s: Option<string>)
  {
    s.Some? && |s.value| >= 3
  }

  /** `yup.object({id: yup.string().required(), name: yup.string()}).nullable().required()`. */
  predicate PatentPresent(p: Option<Patent>)
  {
    p.Some? && p.value.id != ""
  }

  /** The error map the resolver produces, as the set of fields that have an entry. */
  function Errors(d: Draft): (r: set<Field>)
    ensures r == {} <==>
      LongEnough(d.name) && LongEnough(d.username) && d.active.Some? && PatentPresent(d.patent)
    ensures PatentField in r <==> d.patent.None? || d.patent.value.id == ""
  {
    (if LongEnough(d.name) then {} else {Name}) +
    (if LongEnough(d.username) then {} else {Username}) +
    (if d.active.Some? then {} else {Active}) +
    (if PatentPresent(d.patent) then {} else {PatentField})
  }

  // ----- Loading (`patents.find`) -----

  /** Position of the first patent whose id is `id`, or `|patents|` when there is none. */
  function FirstPatentIndex(patents: seq<Patent>, id: string): (k: nat)
    ensures k <= |patents|
    ensures forall j :: 0 <= j < k ==> patents[j].id != id
    ensures k < |patents| ==> patents[k].id == id
  {
    if |patents| == 0 then 0
    else if patents[0].id == id then 0
    else 1 + FirstPatentIndex(patents[1..], id)
  }

  /**
   * `patents.find((patent) => patent.id === raw)`: the first patent with that id;
   * `undefined` when no patent has it or when the raw value is itself missing.
   */
  function FindPatent(patents: seq<Patent>, raw: Option<string>): (r: Option<Patent>)
    ensures r.None? <==> raw.None? || forall j :: 0 <= j < |patents| ==> patents[j].id != raw.value
    ensures r.Some? ==> r.value.id == raw.value
    ensures r.Some? ==> exists k :: 0 <= k < |patents| && patents[k] == r.value &&
                                    forall j :: 0 <= j < k ==> patents[j].id != raw.value
  {
    if raw.None? then None
    else
      var k := FirstPatentIndex(patents, raw.value);
      if k < |patents| then Some(patents[k]) else None
  }

  /** The patent id stored in the row is one some patent of the asset carries. */
  predicate KnownPatent(patents: seq<Patent>, raw: Option<string>)
  {
    raw.Some? && exists j :: 0 <= j < |patents| && patents[j].id == raw.value
  }

  /** `reset({...response, patent: patents.find(...)})`: the form a loaded player produces. */
  function Populate(response: PlayerRecord, patents: seq<Patent>): (d: Draft)
    ensures d.id == response.id && d.userId == response.userId && d.name == response.name
    ensures d.username == response.username && d.active == response.active
    ensures d.patent.Some? <==> KnownPatent(patents, response.patent)
    ensures d.patent.Some? ==> d.patent.value.id == response.patent.value && d.patent.value in patents
  {
    Draft(response.id, response.userId, response.name, response.username,
          FindPatent(patents, response.patent), response.active)
  }

  // ----- Submitting (`createOrUpdatePlayer`) -----

  /** The object handed to `supabase.from(TABLE_PLAYERS).upsert(...)`. */
  datatype UpsertRow = UpsertRow(
    id: Option<string>,
    userId: Option<string>,
    name: Option<string>,
    username: Option<string>,
    patent: Option<string>,
    active: Option<bool>)

  /**
   * The mutation's payload: the form's id, name, username and active flag, the
   * owner taken from the seed the dialog was opened with, and the patent
   * reduced to its id.
   */
  function ToPayload(d: Draft, seed: Option<RecordModal>): (row: UpsertRow)
    ensures row.userId == SeedUserId(seed)
    ensures row.id == d.id && row.name == d.name && row.username == d.username && row.active == d.active
    ensures row.patent.Some? <==> d.patent.Some?
    ensures row.patent.Some? ==> row.patent.value == d.patent.value.id
  {
    UpsertRow(d.id, SeedUserId(seed), d.name, d.username,
              if d.patent.Some? then Some(d.patent.value.id) else None, d.active)
  }

  /** A row whose every field `playerSchema` requires is present and well formed. */
  predicate WellFormedRow(row: UpsertRow)
  {
    LongEnough(row.name) && LongEnough(row.username) && row.active.Some? && Truthy(row.patent)
  }

  /** The text of the success toast: it depends on the seed captured when the mutation started. */
  function SuccessMessage(seed: Option<RecordModal>): (m: string)
    ensures HasId(seed) ==> m == "Atualizado com sucesso!"
    ensures !HasId(seed) ==> m == "Cadastrada com sucesso!"
  {
    (if HasId(seed) then "Atualizado" else "Cadastrada") + " com sucesso!"
  }

  // ----- Footer -----

  datatype SubmitButton = Save | Add

  /** What the footer shows: the submit button's kind and busy state, and whether cancel is enabled. */
  datatype Footer = Footer(submit: SubmitButton, submitBusy: bool, cancelEnabled: bool)

  function FooterFor(seed: Option<RecordModal>, isSubmitting: bool): (f: Footer)
    ensures f.submit == Save <==> HasId(seed)
    ensures f.submitBusy == isSubmitting
    ensures f.cancelEnabled <==> !isSubmitting
  {
    Footer(if HasId(seed) then Save else Add, isSubmitting, !isSubmitting)
  }

  // ----- Properties -----

  /** A draft passes `playerSchema` exactly when the row it projects to is well formed. */
  lemma ValidationMatchesRow(d: Draft, seed: Option<RecordModal>)
    ensures Errors(d) == {} <==> WellFormedRow(ToPayload(d, seed))
  {
  }

  /** The owner in the payload comes from the seed; the form's own `user_id` is never sent. */
  lemma PayloadOwnerFromSeed(d1: Draft, d2: Draft, seed: Option<RecordModal>)
    requires d1.id == d2.id && d1.name == d2.name && d1.username == d2.username && d1.active == d2.active
    requires d1.patent.None? <==> d2.patent.None?
    requires d1.patent.Some? ==> d1.patent.value.id == d2.patent.value.id
    ensures ToPayload(d1, seed) == ToPayload(d2, seed)
    ensures ToPayload(d1, seed).userId == SeedUserId(seed)
  {
  }

  /**
   * Loading a player and submitting it unchanged sends back the loaded fields;
   * the patent id survives exactly when the patents asset knows it.
   */
  lemma LoadThenSaveRoundTrip(r: PlayerRecord, patents: seq<Patent>, seed: Option<RecordModal>)
    ensures var row := ToPayload(Populate(r, patents), seed);
      row.id == r.id && row.name == r.name && row.username == r.username && row.active == r.active &&
      row.userId == SeedUserId(seed) &&
      row.patent == (if KnownPatent(patents, r.patent) then r.patent else None)
  {
  }
}
