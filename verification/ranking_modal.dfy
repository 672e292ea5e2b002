/**
 * The ranking dialog's controller (src/components/Modal/SweepstakeMapRankingModal.tsx):
 * a read-only load keyed by map and sweepstake, no form and no submit, plus an
 * owner-gated action that opens the leaderboard-image import dialog.
 */
module RankingModal {
  import opened Common
  import opened Feedback

  /** The subject of every toast this dialog emits. */
  const Subject := "Ranking"

  /** The warning emitted when the dialog is opened without a map. */
  const MissingMap := "Mapa não informado!"

  datatype User = User(id: string)

  /** The fields of a sweepstake map this dialog reads. */
  datatype SweepstakeMap = SweepstakeMap(id: string, mapId: string, sweepstakeId: string, userId: string)

  /** The seed given to `onOpenModal` (`ISweepstakeMapModal`). */
  datatype MapModalSeed = MapModalSeed(sweepstakeMap: Option<SweepstakeMap>, user: Option<User>)

  /** One row of the ranking table, with the columns the table shows. */
  datatype Ranking = Ranking(
    playerName: string, playerUsername: string,
    kills: int, deaths: int, assistances: int, headshotPercentage: int, damage: int)

  /** The argument of one `getSweepstakeMapRanking` call. */
  datatype RankingQuery = RankingQuery(mapId: string, sweepstakeId: string)

  /** The seed handed to the import dialog's `onOpenModal`. */
  datatype ImportSeed = ImportSeed(id: Option<string>, user: User, sweepstakeMap: Option<SweepstakeMap>)

  /** `recordModal?.sweepstakeMap` is present. */
  predicate HasMap(seed: Option<MapModalSeed>)
  {
    seed.Some? && seed.value.sweepstakeMap.Some?
  }

  /** The request `onOpenModal` dispatches for a seed that has a map. */
  function QueryFor(m: SweepstakeMap): (q: RankingQuery)
    ensures q.mapId == m.mapId && q.sweepstakeId == m.sweepstakeId
  {
    RankingQuery(m.mapId, m.sweepstakeId)
  }

  /**
   * `handleImportImageLeaderboards`: nothing without a user; otherwise the seed
   * for the import dialog, carrying the map's id, the same user and the same map.
   */
  function ImportRequest(props: Option<MapModalSeed>): (r: Option<ImportSeed>)
    ensures r.None? <==> props.None? || props.value.user.None?
    ensures r.Some? ==> r.value.user == props.value.user.value
    ensures r.Some? ==> r.value.sweepstakeMap == props.value.sweepstakeMap
    ensures r.Some? ==> (r.value.id.Some? <==> props.value.sweepstakeMap.Some?)
    ensures r.Some? && r.value.id.Some? ==> r.value.id.value == props.value.sweepstakeMap.value.id
  {
    if props.None? || props.value.user.None? then None
    else
      var m := props.value.sweepstakeMap;
      Some(ImportSeed(if m.Some? then Some(m.value.id) else None, props.value.user.value, m))
  }

  /** The outcome of evaluating the import button's JSX condition during a render. */
  datatype Render = Rendered(showImport: bool) | TypeError

  /**
   * The condition as written:
   * `!isMobile && recordModalProps?.user && recordModalProps?.user.id === recordModalProps?.sweepstakeMap.user_id`.
   * The last operand reads `user_id` of a missing map without `?.`, which throws.
   */
  function ImportButtonAsWritten(isMobile: bool, props: Option<MapModalSeed>): (r: Render)
    ensures r == TypeError <==>
      !isMobile && props.Some? && props.value.user.Some? && props.value.sweepstakeMap.None?
    ensures r.Rendered? && r.showImport ==> !isMobile && props.Some? && props.value.user.Some?
  {
    if isMobile || props.None? || props.value.user.None? then Rendered(false)
    else if props.value.sweepstakeMap.None? then TypeError
    else Rendered(props.value.user.value.id == props.value.sweepstakeMap.value.userId)
  }

  /**
   * The owner gate as intended: on a desktop, the import the button would
   * start carries a map owned by the user who would start it.
   */
  function ShowImportButton(isMobile: bool, props: Option<MapModalSeed>): (show: bool)
    ensures show <==>
      !isMobile && props.Some? && props.value.user.Some? && props.value.sweepstakeMap.Some? &&
      props.value.user.value.id == props.value.sweepstakeMap.value.userId
  {
    var request := ImportRequest(props);
    !isMobile && request.Some? && request.value.sweepstakeMap.Some? &&
    request.value.user.id == request.value.sweepstakeMap.value.userId
  }

  /** Where the condition as written renders at all, it agrees with the intended gate. */
  lemma ImportGateAgrees(isMobile: bool, props: Option<MapModalSeed>)
    ensures ImportButtonAsWritten(isMobile, props).Rendered? ==>
      ImportButtonAsWritten(isMobile, props).showImport == ShowImportButton(isMobile, props)
    ensures ImportButtonAsWritten(isMobile, props).TypeError? ==> !ShowImportButton(isMobile, props)
  {
  }

  /** A desktop render after opening with a user but without a map throws. */
  lemma ImportGateThrowsWithoutMap(u: User)
    ensures ImportButtonAsWritten(false, Some(MapModalSeed(None, Some(u)))) == TypeError
    ensures !ShowImportButton(false, Some(MapModalSeed(None, Some(u))))
  {
  }

  class Controller {
    var visible: bool
    var isLoading: bool
    var recordModalProps: Option<MapModalSeed>
    var rankings: seq<Ranking>

    ghost var notifications: seq<Notification>
    ghost var fetches: seq<RankingQuery>
    ghost var loadsSettled: nat
    ghost var visibilityCalls: seq<bool>
    ghost var importOpens: seq<ImportSeed>

    /** A loading flag means a fetch is unsettled; visibility is that of the last dialog call. */
    ghost predicate Valid()
      reads this
    {
      loadsSettled <= |fetches| && (isLoading ==> loadsSettled < |fetches|) &&
      visible == Visibility(visibilityCalls)
    }

    /** The first render: closed, not loading, no seed, no rankings. */
    constructor ()
      ensures Valid()
      ensures !visible && !isLoading && recordModalProps == None && rankings == []
      ensures notifications == [] && fetches == [] && loadsSettled == 0
      ensures visibilityCalls == [] && importOpens == []
    {
      visible, isLoading, recordModalProps, rankings := false, false, None, [];
      notifications, fetches, loadsSettled := [], [], 0;
      visibilityCalls, importOpens := [], [];
    }

    /**
     * `onOpenModal(seed)`: store the seed and empty the rankings; with a map,
     * start loading and fetch by `(map_id, sweepstake_id)`; without one, warn and
     * close. Then open, in both cases, so the last dialog call is an open.
     */
    method Open(seed: Option<MapModalSeed>)
      requires Valid()
      modifies this
      ensures Valid()
      ensures recordModalProps == seed && rankings == [] && visible
      ensures HasMap(seed) ==>
        isLoading && fetches == old(fetches) + [QueryFor(seed.value.sweepstakeMap.value)] &&
        notifications == old(notifications) && visibilityCalls == old(visibilityCalls) + [true]
      ensures !HasMap(seed) ==>
        isLoading == old(isLoading) && fetches == old(fetches) &&
        notifications == old(notifications) + [Toast(Warning, Subject, Text(MissingMap))] &&
        visibilityCalls == old(visibilityCalls) + [false, true]
      ensures loadsSettled == old(loadsSettled) && importOpens == old(importOpens)
    {
      recordModalProps := seed;
      rankings := [];
      if HasMap(seed) {
        isLoading := true;
        fetches := fetches + [QueryFor(seed.value.sweepstakeMap.value)];
      } else {
        notifications := notifications + [Toast(Warning, Subject, Text(MissingMap))];
        visible := false;
        visibilityCalls := visibilityCalls + [false];
      }
      visible := true;
      visibilityCalls := visibilityCalls + [true];
    }

    /** A `getSweepstakeMapRanking` promise resolves: the rankings become the response. */
    method LoadResolved(response: seq<Ranking>)
      requires Valid() && loadsSettled < |fetches|
      modifies this`rankings, this`isLoading, this`loadsSettled
      ensures Valid()
      ensures rankings == response && !isLoading && loadsSettled == old(loadsSettled) + 1
    {
      rankings := response;
      isLoading := false;
      loadsSettled := loadsSettled + 1;
    }

    /** A `getSweepstakeMapRanking` promise rejects: one error toast and the dialog closes. */
    method LoadRejected(error: string)
      requires Valid() && loadsSettled < |fetches|
      modifies this`notifications, this`visible, this`visibilityCalls, this`isLoading, this`loadsSettled
      ensures Valid()
      ensures notifications == old(notifications) + [Toast(Error, Subject, Failure(error))]
      ensures !visible && visibilityCalls == old(visibilityCalls) + [false]
      ensures !isLoading && loadsSettled == old(loadsSettled) + 1
    {
      notifications := notifications + [Toast(Error, Subject, Failure(error))];
      visible := false;
      visibilityCalls := visibilityCalls + [false];
      isLoading := false;
      loadsSettled := loadsSettled + 1;
    }

    /**
     * The dialog's own close control (the dialog has no footer buttons): the
     * dialog closes; seed, rankings and loading are kept.
     */
    method Close()
      requires Valid()
      modifies this`visible, this`visibilityCalls
      ensures Valid()
      ensures !visible && visibilityCalls == old(visibilityCalls) + [false]
    {
      visible := false;
      visibilityCalls := visibilityCalls + [false];
    }

    /** The import button's click: open the import dialog once, or do nothing without a user. */
    method ImportImageLeaderboards()
      requires Valid()
      modifies this`importOpens
      ensures Valid()
      ensures ImportRequest(recordModalProps).None? ==> importOpens == old(importOpens)
      ensures ImportRequest(recordModalProps).Some? ==>
        importOpens == old(importOpens) + [ImportRequest(recordModalProps).value]
    {
      var request := ImportRequest(recordModalProps);
      if request.Some? {
        importOpens := importOpens + [request.value];
      }
    }
  }

  /** Opening with a map whose fetch fails: the dialog ends closed with no rankings. */
  method FailedLoadScenario(seed: MapModalSeed, error: string)
    returns (visible: bool, rankings: seq<Ranking>, ghost notifications: seq<Notification>)
    requires seed.sweepstakeMap.Some?
    ensures !visible && rankings == []
    ensures notifications == [Toast(Error, Subject, Failure(error))]
  {
    var c := new Controller();
    c.Open(Some(seed));
    c.LoadRejected(error);
    visible, rankings, notifications := c.visible, c.rankings, c.notifications;
  }

  /**
   * Opening without a map: a warning, no fetch, loading untouched, and the
   * dialog is left open because the open call follows the close.
   */
  method MissingMapScenario(user: Option<User>)
    returns (visible: bool, isLoading: bool, ghost fetches: seq<RankingQuery>,
             ghost notifications: seq<Notification>, ghost visibilityCalls: seq<bool>)
    ensures visible && !isLoading
    ensures fetches == []
    ensures notifications == [Toast(Warning, Subject, Text(MissingMap))]
    ensures visibilityCalls == [false, true]
  {
    var c := new Controller();
    c.Open(Some(MapModalSeed(None, user)));
    visible, isLoading := c.visible, c.isLoading;
    fetches, notifications, visibilityCalls := c.fetches, c.notifications, c.visibilityCalls;
  }

  /**
   * Two openings with maps, then the first fetch resolves: its rankings are
   * shown under the second map.
   */
  method StaleRankingsAreApplied(first: MapModalSeed, second: MapModalSeed, response: seq<Ranking>)
    returns (rankings: seq<Ranking>, shownSeed: Option<MapModalSeed>)
    requires first.sweepstakeMap.Some? && second.sweepstakeMap.Some?
    ensures rankings == response && shownSeed == Some(second)
  {
    var c := new Controller();
    c.Open(Some(first));
    c.Open(Some(second));
    c.LoadResolved(response);
    rankings, shownSeed := c.rankings, c.recordModalProps;
  }
}
