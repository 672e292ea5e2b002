/**
 * The player edit dialog's controller (src/components/Modal/PlayerModal.tsx):
 * `onOpenModal`, the `getPlayer` settlement callbacks, the form's submit
 * through `handleSubmit(handleOk)`, the `createOrUpdatePlayer` callbacks and
 * the cancel button. Each asynchronous boundary is an event method; the toasts,
 * fetches, upserts, cache invalidations and dialog calls go to ghost logs.
 *
 * There is no request token: whichever fetch settles is applied, whatever was
 * opened since, and a settling mutation closes the dialog whatever is shown.
 * A mutation's callbacks use the seed captured when it was started.
 */
module PlayerModal {
  import opened Common
  import opened Feedback
  import opened PlayerForm

  /** The subject of every toast this dialog emits. */
  const Subject := "Jogador"

  /** The arguments of one `getPlayer(id, userId)` call. */
  datatype PlayerQuery = PlayerQuery(id: string, userId: Option<string>)

  /** The query key given to `queryClient.invalidateQueries`. */
  datatype QueryKey = TablePlayers

  class Controller {
    /** The dialog's visibility, driven by `onOpenModal`/`onCloseModal` on its handle. */
    var visible: bool
    var isLoading: bool
    var recordModalProps: Option<RecordModal>
    /** The form values and the form's current error map. */
    var values: Draft
    var errors: set<Field>
    var isSubmitting: bool
    /**
     * The mutations dispatched and not yet settled, each with the seed its
     * callbacks captured when it was started: `react-query` fixes a
     * mutation's options, and so the closures over `recordModalProps`, at
     * `mutateAsync` time.
     */
    var inFlight: seq<Option<RecordModal>>
    /** The patents asset. */
    const patents: seq<Patent>

    ghost var notifications: seq<Notification>
    ghost var fetches: seq<PlayerQuery>
    ghost var loadsSettled: nat
    ghost var upserts: seq<UpsertRow>
    ghost var mutationsSettled: nat
    ghost var invalidations: seq<QueryKey>
    ghost var visibilityCalls: seq<bool>

    /**
     * The controller's invariant: a loading or submitting flag means a request
     * is still unsettled, every invalidation follows a settled mutation, every
     * row that reached `upsert` satisfies the schema, and the visibility is that
     * of the last call on the dialog.
     */
    ghost predicate Valid()
      reads this
    {
      loadsSettled <= |fetches| && (isLoading ==> loadsSettled < |fetches|) &&
      mutationsSettled + |inFlight| == |upserts| && (isSubmitting ==> |inFlight| > 0) &&
      |invalidations| <= mutationsSettled &&
      (forall i :: 0 <= i < |upserts| ==> WellFormedRow(upserts[i])) &&
      visible == Visibility(visibilityCalls)
    }

    /** The component's first render: closed, not loading, seed `{}`, empty form. */
    constructor (patents: seq<Patent>)
      ensures Valid()
      ensures this.patents == patents
      ensures !visible && !isLoading && !isSubmitting
      ensures recordModalProps == Some(RecordModal(None, None))
      ensures values == EmptyDraft && errors == {}
      ensures notifications == [] && fetches == [] && upserts == [] && invalidations == []
      ensures visibilityCalls == [] && loadsSettled == 0 && mutationsSettled == 0 && inFlight == []
    {
      this.patents := patents;
      visible, isLoading, isSubmitting := false, false, false;
      recordModalProps := Some(RecordModal(None, None));
      values, errors := EmptyDraft, {};
      notifications, fetches, upserts, invalidations := [], [], [], [];
      visibilityCalls, loadsSettled, mutationsSettled, inFlight := [], 0, 0, [];
    }

    /**
     * `onOpenModal(seed)`: store the seed; with an id, start loading and fetch by
     * `(id, userId)` leaving the form as it is; without one, reset the form to
     * empty values, which also clears the form's errors and its submitting
     * flag. Either way the dialog is then opened.
     */
    method Open(seed: Option<RecordModal>)
      requires Valid()
      modifies this
      ensures Valid()
      ensures recordModalProps == seed && visible
      ensures visibilityCalls == old(visibilityCalls) + [true]
      ensures HasId(seed) ==>
        isLoading && fetches == old(fetches) + [PlayerQuery(seed.value.id.value, seed.value.userId)] &&
        values == old(values) && errors == old(errors) && isSubmitting == old(isSubmitting)
      ensures !HasId(seed) ==>
        isLoading == old(isLoading) && fetches == old(fetches) && values == EmptyDraft && errors == {} &&
        !isSubmitting
      ensures loadsSettled == old(loadsSettled)
      ensures notifications == old(notifications) && upserts == old(upserts)
      ensures mutationsSettled == old(mutationsSettled) && inFlight == old(inFlight) && invalidations == old(invalidations)
    {
      recordModalProps := seed;
      if HasId(seed) {
        isLoading := true;
        fetches := fetches + [PlayerQuery(seed.value.id.value, seed.value.userId)];
      } else {
        values, errors, isSubmitting := EmptyDraft, {}, false;
      }
      visible := true;
      visibilityCalls := visibilityCalls + [true];
    }

    /**
     * A `getPlayer` promise resolves: the form is reset to the loaded player,
     * which also clears its errors and its submitting flag.
     */
    method LoadResolved(response: PlayerRecord)
      requires Valid() && loadsSettled < |fetches|
      modifies this
      ensures Valid()
      ensures values == Populate(response, patents) && errors == {} && !isSubmitting
      ensures !isLoading && loadsSettled == old(loadsSettled) + 1
      ensures visible == old(visible) && visibilityCalls == old(visibilityCalls)
      ensures recordModalProps == old(recordModalProps)
      ensures notifications == old(notifications) && fetches == old(fetches)
      ensures upserts == old(upserts) && mutationsSettled == old(mutationsSettled) && inFlight == old(inFlight)
      ensures invalidations == old(invalidations)
    {
      values, errors, isSubmitting := Populate(response, patents), {}, false;
      isLoading := false;
      loadsSettled := loadsSettled + 1;
    }

    /** A `getPlayer` promise rejects: one error toast, the dialog closes, the form is kept. */
    method LoadRejected(error: string)
      requires Valid() && loadsSettled < |fetches|
      modifies this
      ensures Valid()
      ensures notifications == old(notifications) + [Toast(Error, Subject, Failure(error))]
      ensures !visible && visibilityCalls == old(visibilityCalls) + [false]
      ensures !isLoading && loadsSettled == old(loadsSettled) + 1
      ensures values == old(values) && errors == old(errors)
      ensures recordModalProps == old(recordModalProps) && isSubmitting == old(isSubmitting)
      ensures fetches == old(fetches) && upserts == old(upserts)
      ensures mutationsSettled == old(mutationsSettled) && inFlight == old(inFlight) && invalidations == old(invalidations)
    {
      notifications := notifications + [Toast(Error, Subject, Failure(error))];
      visible := false;
      visibilityCalls := visibilityCalls + [false];
      isLoading := false;
      loadsSettled := loadsSettled + 1;
    }

    /** The user edits the fields (`register`, `setValue` from the patent select). */
    method Edit(newValues: Draft)
      requires Valid()
      modifies this`values
      ensures Valid() && values == newValues
    {
      values := newValues;
    }

    /**
     * `handleSubmit(handleOk)`: validate the current values; a draft with errors
     * stops here, a valid one starts the mutation, whose payload is dispatched
     * to `upsert` with the seed current now.
     */
    method Submit()
      requires Valid()
      modifies this
      ensures Valid()
      ensures errors == Errors(values) && values == old(values)
      ensures errors == {} ==>
        isSubmitting && upserts == old(upserts) + [ToPayload(values, recordModalProps)] &&
        inFlight == old(inFlight) + [recordModalProps]
      ensures errors != {} ==> !isSubmitting && upserts == old(upserts) && inFlight == old(inFlight)
      ensures visible == old(visible) && visibilityCalls == old(visibilityCalls)
      ensures isLoading == old(isLoading) && recordModalProps == old(recordModalProps)
      ensures notifications == old(notifications) && fetches == old(fetches)
      ensures loadsSettled == old(loadsSettled) && mutationsSettled == old(mutationsSettled)
      ensures invalidations == old(invalidations)
    {
      errors := Errors(values);
      if errors == {} {
        ValidationMatchesRow(values, recordModalProps);
        isSubmitting := true;
        upserts := upserts + [ToPayload(values, recordModalProps)];
        inFlight := inFlight + [recordModalProps];
      } else {
        isSubmitting := false;
      }
    }

    /**
     * `onSuccess` of the in-flight mutation at position `k`: one success toast
     * whose text depends on the seed that mutation captured when it started,
     * one invalidation of the players table, then the dialog closes. The form
     * values are not cleared.
     */
    method MutationSucceeded(k: nat)
      requires Valid() && k < |inFlight|
      modifies this
      ensures Valid()
      ensures notifications ==
        old(notifications) + [Toast(Success, Subject, Text(SuccessMessage(old(inFlight[k]))))]
      ensures invalidations == old(invalidations) + [TablePlayers]
      ensures !visible && visibilityCalls == old(visibilityCalls) + [false]
      ensures !isSubmitting && mutationsSettled == old(mutationsSettled) + 1
      ensures inFlight == old(inFlight[..k] + inFlight[k + 1..])
      ensures values == old(values) && errors == old(errors)
      ensures isLoading == old(isLoading) && recordModalProps == old(recordModalProps)
      ensures fetches == old(fetches) && loadsSettled == old(loadsSettled) && upserts == old(upserts)
    {
      notifications := notifications + [Toast(Success, Subject, Text(SuccessMessage(inFlight[k])))];
      invalidations := invalidations + [TablePlayers];
      visible := false;
      visibilityCalls := visibilityCalls + [false];
      isSubmitting := false;
      mutationsSettled := mutationsSettled + 1;
      inFlight := inFlight[..k] + inFlight[k + 1..];
    }

    /** `onError` of the in-flight mutation at position `k`: one error toast; the dialog stays as it is. */
    method MutationFailed(k: nat, error: string)
      requires Valid() && k < |inFlight|
      modifies this
      ensures Valid()
      ensures notifications == old(notifications) + [Toast(Error, Subject, Failure(error))]
      ensures !isSubmitting && mutationsSettled == old(mutationsSettled) + 1
      ensures inFlight == old(inFlight[..k] + inFlight[k + 1..])
      ensures visible == old(visible) && visibilityCalls == old(visibilityCalls)
      ensures values == old(values) && errors == old(errors)
      ensures isLoading == old(isLoading) && recordModalProps == old(recordModalProps)
      ensures fetches == old(fetches) && loadsSettled == old(loadsSettled)
      ensures upserts == old(upserts) && invalidations == old(invalidations)
    {
      notifications := notifications + [Toast(Error, Subject, Failure(error))];
      isSubmitting := false;
      mutationsSettled := mutationsSettled + 1;
      inFlight := inFlight[..k] + inFlight[k + 1..];
    }

    /**
     * The cancel button's click: close the dialog. The button is disabled while
     * submitting (see `FooterFor`), but nothing here refuses the call.
     */
    method Cancel()
      requires Valid()
      modifies this`visible, this`visibilityCalls
      ensures Valid()
      ensures !visible && visibilityCalls == old(visibilityCalls) + [false]
    {
      visible := false;
      visibilityCalls := visibilityCalls + [false];
    }

    /** The footer the dialog renders now. */
    function CurrentFooter(): (f: Footer)
      reads this
      ensures f.cancelEnabled <==> !isSubmitting
      ensures f.submit == Save <==> HasId(recordModalProps)
    {
      FooterFor(recordModalProps, isSubmitting)
    }
  }

  /**
   * Two openings with ids, then the FIRST fetch resolves: its player fills the
   * form although the dialog now shows the second seed.
   */
  method StaleLoadIsApplied(patents: seq<Patent>, first: RecordModal, second: RecordModal, response: PlayerRecord)
    returns (values: Draft, shownSeed: Option<RecordModal>)
    requires Truthy(first.id) && Truthy(second.id)
    ensures values == Populate(response, patents)
    ensures shownSeed == Some(second)
  {
    var c := new Controller(patents);
    c.Open(Some(first));
    c.Open(Some(second));
    assert |c.fetches| == 2;
    c.LoadResolved(response);
    values, shownSeed := c.values, c.recordModalProps;
  }

  /**
   * Opened with an id and cancelled before the fetch settles: the response
   * still fills the (hidden) form, and the dialog stays closed.
   */
  method LoadAfterCancelIsApplied(patents: seq<Patent>, seed: RecordModal, response: PlayerRecord)
    returns (visible: bool, values: Draft)
    requires Truthy(seed.id)
    ensures !visible && values == Populate(response, patents)
  {
    var c := new Controller(patents);
    c.Open(Some(seed));
    c.Cancel();
    c.LoadResolved(response);
    visible, values := c.visible, c.values;
  }

  /**
   * Create flow: open without a seed, fill a valid draft, submit, the mutation
   * succeeds. Exactly one upsert, one invalidation and one success toast with
   * the creation message; the dialog ends closed.
   */
  method CreateFlow(patents: seq<Patent>, d: Draft)
    returns (visible: bool, submitting: bool,
             ghost upserts: seq<UpsertRow>, ghost invalidations: seq<QueryKey>, ghost notifications: seq<Notification>)
    requires Errors(d) == {}
    ensures !visible && !submitting
    ensures upserts == [ToPayload(d, None)] && WellFormedRow(upserts[0])
    ensures invalidations == [TablePlayers]
    ensures notifications == [Toast(Success, Subject, Text("Cadastrada com sucesso!"))]
  {
    var c := new Controller(patents);
    c.Open(None);
    c.Edit(d);
    c.Submit();
    c.MutationSucceeded(0);
    visible, submitting := c.visible, c.isSubmitting;
    upserts, invalidations, notifications := c.upserts, c.invalidations, c.notifications;
  }

  /**
   * Edit flow reopened for creation before the mutation settles: the success
   * toast still says the player was updated, because the mutation's callbacks
   * captured the edit seed, and the sent row carries that seed's owner.
   */
  method ReopenBeforeSuccess(patents: seq<Patent>, seed: RecordModal, d: Draft)
    returns (shownSeed: Option<RecordModal>, visible: bool,
             ghost upserts: seq<UpsertRow>, ghost notifications: seq<Notification>)
    requires Truthy(seed.id) && Errors(d) == {}
    ensures shownSeed == None && !visible
    ensures upserts == [ToPayload(d, Some(seed))] && upserts[0].userId == seed.userId
    ensures notifications == [Toast(Success, Subject, Text("Atualizado com sucesso!"))]
  {
    var c := new Controller(patents);
    c.Open(Some(seed));
    c.Edit(d);
    c.Submit();
    c.Open(None);
    c.MutationSucceeded(0);
    shownSeed, visible, upserts, notifications := c.recordModalProps, c.visible, c.upserts, c.notifications;
  }

  /**
   * Reopened for creation while a mutation is in flight: the empty reset clears
   * the submitting flag, so the footer shows an idle Add button and an enabled
   * cancel although the mutation has not settled.
   */
  method ReopenDuringSubmit(patents: seq<Patent>, seed: RecordModal, d: Draft)
    returns (footer: Footer, ghost inFlight: seq<Option<RecordModal>>)
    requires Truthy(seed.id) && Errors(d) == {}
    ensures footer == Footer(Add, false, true)
    ensures inFlight == [Some(seed)]
  {
    var c := new Controller(patents);
    c.Open(Some(seed));
    c.Edit(d);
    c.Submit();
    c.Open(None);
    footer, inFlight := c.CurrentFooter(), c.inFlight;
  }

  /** A draft that fails the schema never reaches `upsert`, whatever the seed. */
  method InvalidDraftNeverSent(patents: seq<Patent>, seed: Option<RecordModal>, d: Draft)
    returns (errors: set<Field>, submitting: bool, ghost upserts: seq<UpsertRow>, ghost notifications: seq<Notification>)
    requires Errors(d) != {}
    ensures errors == Errors(d) && !submitting
    ensures upserts == [] && notifications == []
  {
    var c := new Controller(patents);
    c.Open(seed);
    c.Edit(d);
    c.Submit();
    errors, submitting := c.errors, c.isSubmitting;
    upserts, notifications := c.upserts, c.notifications;
  }

  /**
   * A failed mutation leaves the dialog open with the submitted values, and a
   * resubmission sends the identical payload a second time.
   */
  method RetryAfterFailure(patents: seq<Patent>, seed: Option<RecordModal>, d: Draft, error: string)
    returns (visible: bool, values: Draft, ghost upserts: seq<UpsertRow>, ghost notifications: seq<Notification>)
    requires Errors(d) == {}
    ensures visible && values == d
    ensures |upserts| == 2 && upserts[0] == upserts[1] == ToPayload(d, seed)
    ensures notifications == [Toast(Error, Subject, Failure(error))]
  {
    var c := new Controller(patents);
    c.Open(seed);
    c.Edit(d);
    c.Submit();
    c.MutationFailed(0, error);
    c.Submit();
    visible, values := c.visible, c.values;
    upserts, notifications := c.upserts, c.notifications;
  }
}
