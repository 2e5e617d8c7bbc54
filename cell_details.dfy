/**
 * The cell detail page: load a cell and then its members, with every state write
 * after an `await` guarded by a liveness flag that the unmount clears; the
 * optimistic replacement of the cell after an edit; and the choice between the
 * loading, not-found and loaded views.
 */
module CellDetails {
  import opened Common

  datatype Cell = Cell(
    id: string,
    name: string,
    address: string,
    meetingDay: int,
    meetingTime: string,
    leaderId: Option<string>,
    neighborhoodId: Option<string>,
    active: bool,
    createdAt: string,
    updatedAt: string)

  /** A member row of the cell, as the page lists it. */
  datatype CellMember = CellMember(
    id: string,
    name: string,
    whatsapp: Option<string>,
    status: string,
    encounterWithGod: bool,
    cellId: Option<string>,
    pipelineStageId: Option<string>,
    neighborhood: string)

  /**
   * The answer of the single-row cell lookup: its data (possibly `null`), the
   * error it reports, or a rejected request carrying an exception message.
   */
  datatype CellLookup = CellData(data: Option<Cell>) | CellError(message: string) | CellRejected(message: string)
  {
    predicate Found() {
      CellData? && data.Some?
    }
  }

  /** The answer of the members query, in the same three forms. */
  datatype MembersQuery = MembersData(data: Option<seq<CellMember>>) | MembersError(message: string) | MembersRejected(message: string)

  /** Where the fetch is: not started, waiting for one of the two answers, or finished. */
  datatype Phase = Idle | AwaitingCell | AwaitingMembers | Settled

  /** What the page renders. */
  datatype View = Spinner | NotFound | Loaded(cell: Cell, members: seq<CellMember>)

  /** The route parameter counts only when it is a non-empty string (`!id` otherwise). */
  predicate HasId(id: Option<string>) {
    id.Some? && id.value != ""
  }

  /** The description of the notification for a failed cell lookup. */
  function LookupFailureMessage(answer: CellLookup): (m: string)
    requires !answer.Found()
    ensures answer.CellError? ==> m == "Erro ao buscar detalhes da c\U{00E9}lula: " + answer.message
    ensures answer.CellData? ==> m == "C\U{00E9}lula n\U{00E3}o encontrada"
    ensures answer.CellRejected? ==> m == answer.message
  {
    match answer
    case CellError(message) => "Erro ao buscar detalhes da c\U{00E9}lula: " + message
    case CellData(_) => "C\U{00E9}lula n\U{00E3}o encontrada"
    case CellRejected(message) => message
  }

  /** A query error and a missing row are told apart by their messages. */
  lemma QueryErrorIsNotNotFound(message: string)
    ensures LookupFailureMessage(CellError(message)) != LookupFailureMessage(CellData(None))
  {
    assert LookupFailureMessage(CellError(message))[0] == 'E';
  }

  /** The description of the notification for a failed members query. */
  function MembersFailureMessage(answer: MembersQuery): (m: string)
    requires !answer.MembersData?
    ensures answer.MembersError? ==> m == "Erro ao buscar contatos da c\U{00E9}lula: " + answer.message
    ensures answer.MembersRejected? ==> m == answer.message
  {
    match answer
    case MembersError(message) => "Erro ao buscar contatos da c\U{00E9}lula: " + message
    case MembersRejected(message) => message
  }

  /** `contactsData || []`. */
  function OrNone(data: Option<seq<CellMember>>): (members: seq<CellMember>)
    ensures data.None? ==> members == []
    ensures data.Some? ==> members == data.value
  {
    match data
    case None => []
    case Some(rows) => rows
  }

  /** The render choice: loading first, then a missing cell, then the loaded view. */
  function SelectView(loading: bool, cell: Option<Cell>, members: seq<CellMember>): (v: View)
    ensures v.Spinner? <==> loading
    ensures v.NotFound? <==> !loading && cell.None?
    ensures v.Loaded? ==> cell == Some(v.cell) && v.members == members
  {
    if loading then Spinner
    else if cell.None? then NotFound
    else Loaded(cell.value, members)
  }

  /** The weekday label of `meetingDay`; Sunday is 0 and an index outside 0..6 has none. */
  function DayName(meetingDay: int): (name: Option<string>)
    ensures name.Some? <==> 0 <= meetingDay <= 6
    ensures meetingDay == 0 ==> name == Some("Domingo")
    ensures meetingDay == 6 ==> name == Some("S\U{00E1}bado")
  {
    var names := ["Domingo", "Segunda", "Ter\U{00E7}a", "Quarta", "Quinta", "Sexta", "S\U{00E1}bado"];
    if 0 <= meetingDay < |names| then Some(names[meetingDay]) else None
  }

  /** The page's state, its liveness flag, the notifications it showed and the fetch in progress. */
  class CellDetailsPage {
    const id: Option<string>
    var cell: Option<Cell>
    var contacts: seq<CellMember>
    var loading: bool
    var editDialogOpen: bool
    var mounted: bool
    var toasts: seq<Toast>
    var phase: Phase

    /**
     * The loading flag is raised for as long as a fetch is pending (and before
     * the first one), and is down once a fetch has finished on a mounted page.
     */
    ghost predicate Valid()
      reads this
    {
      && (phase != Settled ==> loading)
      && (phase == Settled && mounted ==> !loading)
    }

    /** The state of a freshly rendered page. */
    constructor (id: Option<string>)
      ensures Valid()
      ensures this.id == id && cell == None && contacts == [] && loading && !editDialogOpen
      ensures mounted && toasts == [] && phase == Idle
    {
      this.id := id;
      cell := None;
      contacts := [];
      loading := true;
      editDialogOpen := false;
      mounted := true;
      toasts := [];
      phase := Idle;
    }

    /** What the page renders now. */
    function Render(): View
      reads this
    {
      SelectView(loading, cell, contacts)
    }

    /** The start of `fetchCellDetails`: without an id nothing happens; otherwise loading is raised. */
    method BeginFetch()
      requires Valid() && phase == Idle
      modifies this`loading, this`phase
      ensures Valid()
      ensures HasId(id) ==> loading && phase == AwaitingCell
      ensures !HasId(id) ==> loading == old(loading) && phase == Idle
    {
      if !HasId(id) {
        return;
      }
      loading := true;
      phase := AwaitingCell;
    }

    /** The mount effect: without an id it returns at once; otherwise it marks the page live and fetches. */
    method MountEffect()
      requires Valid() && phase == Idle
      modifies this`mounted, this`loading, this`phase
      ensures Valid()
      ensures HasId(id) ==> mounted && loading && phase == AwaitingCell
      ensures !HasId(id) ==> mounted == old(mounted) && loading == old(loading) && phase == Idle
    {
      if !HasId(id) {
        return;
      }
      mounted := true;
      BeginFetch();
    }

    /** The effect's cleanup, which exists only when the effect ran with an id. */
    method Unmount()
      requires Valid()
      modifies this`mounted
      ensures Valid()
      ensures mounted == (old(mounted) && !HasId(id))
    {
      if HasId(id) {
        mounted := false;
      }
    }

    /**
     * The cell lookup answers. A found row is stored if the page is live and the
     * members query follows; otherwise the fetch ends, notifying and lowering
     * loading only if the page is live. Nothing is written on an unmounted page.
     */
    method CellLookupResolved(answer: CellLookup)
      requires Valid() && phase == AwaitingCell
      modifies this`cell, this`loading, this`toasts, this`phase
      ensures Valid()
      ensures answer.Found() ==> phase == AwaitingMembers && loading == old(loading) && toasts == old(toasts)
      ensures answer.Found() ==> cell == if mounted then answer.data else old(cell)
      ensures !answer.Found() ==> phase == Settled && cell == old(cell)
      ensures !answer.Found() ==>
        toasts == old(toasts) + (if mounted then [ErrorToast(LookupFailureMessage(answer))] else [])
      ensures !answer.Found() ==> loading == (old(loading) && !mounted)
      ensures !mounted ==> cell == old(cell) && loading == old(loading) && toasts == old(toasts)
    {
      if answer.Found() {
        if mounted {
          cell := answer.data;
        }
        phase := AwaitingMembers;
      } else {
        if mounted {
          toasts := toasts + [ErrorToast(LookupFailureMessage(answer))];
        }
        if mounted {
          loading := false;
        }
        phase := Settled;
      }
    }

    /**
     * The members query answers and the fetch ends. On success the members are
     * stored (or `[]` for `null` data), on failure they are kept and a
     * notification is shown; all of it only on a live page.
     */
    method MembersResolved(answer: MembersQuery)
      requires Valid() && phase == AwaitingMembers
      modifies this`contacts, this`loading, this`toasts, this`phase
      ensures Valid()
      ensures phase == Settled
      ensures loading == (old(loading) && !mounted)
      ensures answer.MembersData? ==> toasts == old(toasts)
      ensures answer.MembersData? ==> contacts == if mounted then OrNone(answer.data) else old(contacts)
      ensures !answer.MembersData? ==> contacts == old(contacts)
      ensures !answer.MembersData? ==>
        toasts == old(toasts) + (if mounted then [ErrorToast(MembersFailureMessage(answer))] else [])
      ensures !mounted ==> contacts == old(contacts) && loading == old(loading) && toasts == old(toasts)
    {
      if answer.MembersData? {
        if mounted {
          contacts := OrNone(answer.data);
        }
      } else {
        if mounted {
          toasts := toasts + [ErrorToast(MembersFailureMessage(answer))];
        }
      }
      if mounted {
        loading := false;
      }
      phase := Settled;
    }

    /** The edit dialog's completion: the cell is replaced by the edited one and the dialog closes. */
    method HandleCellUpdated(updated: Cell)
      requires Valid()
      modifies this`cell, this`editDialogOpen
      ensures Valid()
      ensures cell == Some(updated) && !editDialogOpen
    {
      cell := Some(updated);
      editDialogOpen := false;
    }

    /** The "Editar" button. */
    method OpenEditDialog()
      requires Valid()
      modifies this`editDialogOpen
      ensures Valid() && editDialogOpen
    {
      editDialogOpen := true;
    }

    /** The edit dialog's `onClose`. */
    method CloseEditDialog()
      requires Valid()
      modifies this`editDialogOpen
      ensures Valid() && !editDialogOpen
    {
      editDialogOpen := false;
    }
  }

  /** Where, if anywhere, the page unmounts during the fetch. */
  datatype UnmountPoint = StaysMounted | BeforeCellAnswer | BeforeMembersAnswer

  /**
   * A whole visit: the page mounts with `id`, the answers arrive in order, and
   * the page may unmount before one of them. Returns what the page would render
   * and the notifications it showed.
   */
  method Visit(id: Option<string>, lookup: CellLookup, members: MembersQuery, unmount: UnmountPoint)
    returns (view: View, shown: seq<Toast>)
    // without an id there is no fetch: the page keeps its initial spinner
    ensures !HasId(id) ==> view == Spinner && shown == []
    // once unmounted, nothing is shown and nothing is written
    ensures HasId(id) && unmount == BeforeCellAnswer ==> view == Spinner && shown == []
    ensures HasId(id) && unmount == BeforeMembersAnswer && lookup.Found() ==> view == Spinner && shown == []
    // a live page whose lookup fails shows "not found" and one notification
    ensures HasId(id) && unmount != BeforeCellAnswer && !lookup.Found() ==>
      view == NotFound && shown == [ErrorToast(LookupFailureMessage(lookup))]
    // a live page whose lookup succeeds shows the cell, its members or none
    ensures HasId(id) && unmount == StaysMounted && lookup.Found() && members.MembersData? ==>
      view == Loaded(lookup.data.value, OrNone(members.data)) && shown == []
    ensures HasId(id) && unmount == StaysMounted && lookup.Found() && !members.MembersData? ==>
      view == Loaded(lookup.data.value, []) && shown == [ErrorToast(MembersFailureMessage(members))]
  {
    var page := new CellDetailsPage(id);
    page.MountEffect();
    if page.phase == AwaitingCell {
      if unmount == BeforeCellAnswer {
        page.Unmount();
      }
      page.CellLookupResolved(lookup);
      if page.phase == AwaitingMembers {
        if unmount == BeforeMembersAnswer {
          page.Unmount();
        }
        page.MembersResolved(members);
      }
    }
    view := page.Render();
    shown := page.toasts;
  }

  /** After an edit, the loaded view shows the edited cell with the same members, without a new fetch. */
  method EditThenRender(id: string, row: Cell, members: seq<CellMember>, edited: Cell) returns (before: View, after: View)
    requires id != ""
    ensures before == Loaded(row, members)
    ensures after == Loaded(edited, members)
  {
    var page := new CellDetailsPage(Some(id));
    page.MountEffect();
    page.CellLookupResolved(CellData(Some(row)));
    page.MembersResolved(MembersData(Some(members)));
    before := page.Render();
    page.OpenEditDialog();
    page.HandleCellUpdated(edited);
    after := page.Render();
  }
}
