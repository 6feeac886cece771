/**
 * The festival-submission entity FestivalForm: a record a user files to
 * propose a festival, created from a create request and edited in place
 * from update requests.
 *
 * The value-level functions (Created, Updated, Replay) say what the two
 * operations compute; the class FestivalForm carries the same fields as
 * the entity and its methods are proved against those functions.
 */
module FestivalFormEntity {
  import opened Dto

  /** A nullable value; `None` stands for a Java null. */
  datatype Option<T> = None | Some(value: T)

  /** The seven fields that `update` overwrites. */
  datatype Details = Details(
    festivalName: string,
    startDate: Date,
    endDate: Date,
    description: string,
    address: string,
    image: string,
    fee: string
  )

  /**
   * The value of one FestivalForm: its database id (absent until the
   * persistence layer generates one), the editable details and the id of
   * the user who owns the form.
   */
  datatype FormState = FormState(
    id: Option<int>,
    festivalName: string,
    startDate: Date,
    endDate: Date,
    description: string,
    address: string,
    image: string,
    fee: string,
    userId: int
  ) {
    /** The editable part of the form. */
    function Editable(): Details {
      Details(festivalName, startDate, endDate, description, address, image, fee)
    }
  }

  /** The details a create request fixes, with the separately supplied image URL. */
  function FromCreate(request: CreateRequest, imgUrl: string): Details {
    Details(request.festivalName, request.startDate, request.endDate,
            request.description, request.address, imgUrl, request.fee)
  }

  /** The details an update request fixes, image included. */
  function FromUpdate(request: UpdateRequest): Details {
    Details(request.festivalName, request.startDate, request.endDate,
            request.description, request.address, request.image, request.fee)
  }

  /** Two forms with the same id and owner. */
  predicate SameIdentity(s: FormState, t: FormState) {
    s.id == t.id && s.userId == t.userId
  }

  /**
   * The form `create(request, userId, imgUrl)` builds: no id yet, the
   * details copied from the request, the image from `imgUrl` and the owner
   * from `userId`.
   */
  function Created(request: CreateRequest, userId: int, imgUrl: string): (s: FormState)
    ensures s.id == None
    ensures s.userId == userId
    ensures s.image == imgUrl
    ensures s.Editable() == FromCreate(request, imgUrl)
  {
    FormState(None, request.festivalName, request.startDate, request.endDate,
              request.description, request.address, imgUrl, request.fee, userId)
  }

  /**
   * The form after `update(request)`: every editable field, the image
   * included, is the request's; the id and the owner are those of `s`.
   */
  function Updated(s: FormState, request: UpdateRequest): (t: FormState)
    ensures SameIdentity(s, t)
    ensures t.Editable() == FromUpdate(request)
  {
    s.(festivalName := request.festivalName, startDate := request.startDate,
       endDate := request.endDate, description := request.description,
       address := request.address, image := request.image, fee := request.fee)
  }

  /** The form after `update` has been called with each of `requests` in turn. */
  function Replay(s: FormState, requests: seq<UpdateRequest>): (t: FormState)
    ensures SameIdentity(s, t)
    decreases |requests|
  {
    if requests == [] then s else Replay(Updated(s, requests[0]), requests[1..])
  }

  /** Updating twice with the same request is the same as updating once. */
  lemma UpdateIdempotent(s: FormState, request: UpdateRequest)
    ensures Updated(Updated(s, request), request) == Updated(s, request)
  {
  }

  /** Of two updates in a row, only the second one's details survive. */
  lemma LastWriteWins(s: FormState, r1: UpdateRequest, r2: UpdateRequest)
    ensures Updated(Updated(s, r1), r2) == Updated(s, r2)
    ensures SameIdentity(s, Updated(Updated(s, r1), r2))
  {
  }

  /**
   * An update forgets everything editable that the form held before: two
   * forms end up equal after the same update exactly when they have the
   * same id and owner.
   */
  lemma UpdateForgetsDetails(s1: FormState, s2: FormState, request: UpdateRequest)
    ensures Updated(s1, request) == Updated(s2, request) <==> SameIdentity(s1, s2)
  {
  }

  /**
   * Corollary of the contracts of Created and Updated, stated for the
   * reader: `create` takes the image from its `imgUrl` argument, `update`
   * from the request itself whatever the form held.
   */
  lemma ImageProvenance(request: CreateRequest, userId: int, imgUrl: string,
                        s: FormState, update: UpdateRequest)
    ensures Created(request, userId, imgUrl).image == imgUrl
    ensures Updated(s, update).image == update.image
  {
  }

  /**
   * Corollary composing the contracts of Created and Updated: editing a
   * freshly created form keeps it unsaved and keeps its owner; nothing the
   * create request or the image URL supplied survives.
   */
  lemma CreateThenUpdate(request: CreateRequest, userId: int, imgUrl: string, update: UpdateRequest)
    ensures Updated(Created(request, userId, imgUrl), update).id == None
    ensures Updated(Created(request, userId, imgUrl), update).userId == userId
    ensures Updated(Created(request, userId, imgUrl), update).Editable() == FromUpdate(update)
  {
  }

  /**
   * Last write wins over any number of updates: after a non-empty series of
   * updates the form holds exactly the last request's details, with the
   * original id and owner; after none it is unchanged.
   */
  lemma {:induction false} ReplayLastWins(s: FormState, requests: seq<UpdateRequest>)
    ensures requests == [] ==> Replay(s, requests) == s
    ensures requests != [] ==> Replay(s, requests) == Updated(s, requests[|requests| - 1])
    decreases |requests|
  {
    if |requests| > 1 {
      ReplayLastWins(Updated(s, requests[0]), requests[1..]);
      LastWriteWins(s, requests[0], requests[|requests| - 1]);
    }
  }

  /**
   * Because every update overwrites all editable fields, a non-empty series
   * of updates wipes out whatever series came before it.
   */
  lemma {:induction false} ReplayOnlyLastSeriesMatters(s: FormState, first: seq<UpdateRequest>, second: seq<UpdateRequest>)
    requires second != []
    ensures Replay(s, first + second) == Replay(s, second)
  {
    var all := first + second;
    assert all[|all| - 1] == second[|second| - 1];
    ReplayLastWins(s, all);
    ReplayLastWins(s, second);
  }

  /** Replaying the same series of updates a second time changes nothing. */
  lemma {:induction false} ReplayIdempotent(s: FormState, requests: seq<UpdateRequest>)
    ensures Replay(Replay(s, requests), requests) == Replay(s, requests)
  {
    ReplayLastWins(s, requests);
    ReplayLastWins(Replay(s, requests), requests);
    if requests != [] {
      UpdateIdempotent(s, requests[|requests| - 1]);
    }
  }

  /**
   * The entity as the service holds it: fields updated in place.
   */
  class FestivalForm {
    var id: Option<int>
    var festivalName: string
    var startDate: Date
    var endDate: Date
    var description: string
    var address: string
    var image: string
    var fee: string
    var userId: int

    /** The current value of the form's fields. */
    function State(): FormState
      reads this
    {
      FormState(id, festivalName, startDate, endDate, description, address, image, fee, userId)
    }

    /** The no-argument constructor: a blank form without an id. */
    constructor ()
      ensures id == None
    {
      id := None;
    }

    /**
     * `FestivalForm.create`: a new form whose fields come from `request`,
     * `userId` and `imgUrl`, and whose id is still absent.
     */
    static method Create(request: CreateRequest, userId: int, imgUrl: string) returns (form: FestivalForm)
      ensures fresh(form)
      ensures form.State() == Created(request, userId, imgUrl)
      ensures form.id == None && form.userId == userId && form.image == imgUrl
    {
      form := new FestivalForm();
      form.festivalName := request.festivalName;
      form.startDate := request.startDate;
      form.endDate := request.endDate;
      form.description := request.description;
      form.address := request.address;
      form.image := imgUrl;
      form.fee := request.fee;
      form.userId := userId;
    }

    /**
     * `update(request)`: overwrites the seven editable fields from the
     * request and leaves the id and the owner as they were.
     */
    method Update(request: UpdateRequest)
      modifies this
      ensures State() == Updated(old(State()), request)
      ensures id == old(id) && userId == old(userId)
      ensures State().Editable() == FromUpdate(request)
    {
      festivalName := request.festivalName;
      startDate := request.startDate;
      endDate := request.endDate;
      description := request.description;
      address := request.address;
      image := request.image;
      fee := request.fee;
    }
  }
}
