/**
 * The location state of `src/contexts/LocationContext.tsx`: the list of
 * locations with its loading flag, the load/refresh operation and the
 * like counter. The backend call's outcome (`locationsApi.getAll`,
 * `locationsApi.like`, both through the request pipeline) is an input.
 */
module LocationContext {
  import opened Common
  import opened Types
  import opened ApiClient

  /** The `prev.map(...)` updater of `addLike`: one more like on every location with that id. */
  function AddLikeTo(locs: seq<LocationInfo>, id: string): (r: seq<LocationInfo>)
    ensures |r| == |locs|
    ensures forall i :: 0 <= i < |locs| && locs[i].id == id ==> r[i] == locs[i].(likes := locs[i].likes + 1)
    ensures forall i :: 0 <= i < |locs| && locs[i].id != id ==> r[i] == locs[i]
  {
    if locs == [] then []
    else
      var head := if locs[0].id == id then locs[0].(likes := locs[0].likes + 1) else locs[0];
      [head] + AddLikeTo(locs[1..], id)
  }

  /** How many locations carry the id. */
  function CountId(locs: seq<LocationInfo>, id: string): nat {
    if locs == [] then 0 else (if locs[0].id == id then 1 else 0) + CountId(locs[1..], id)
  }

  function TotalLikes(locs: seq<LocationInfo>): int {
    if locs == [] then 0 else locs[0].likes + TotalLikes(locs[1..])
  }

  /** An id that no location carries leaves the list as it is. */
  lemma AddLikeAbsent(locs: seq<LocationInfo>, id: string)
    requires forall i :: 0 <= i < |locs| ==> locs[i].id != id
    ensures AddLikeTo(locs, id) == locs
  {
  }

  /** The likes of the list grow by exactly the number of locations carrying the id: by one when ids are unique and the id is present. */
  lemma {:induction false} AddLikeTotal(locs: seq<LocationInfo>, id: string)
    ensures TotalLikes(AddLikeTo(locs, id)) == TotalLikes(locs) + CountId(locs, id)
  {
    if locs != [] {
      AddLikeTotal(locs[1..], id);
      assert AddLikeTo(locs, id)[1..] == AddLikeTo(locs[1..], id);
    }
  }

  /** With unique ids an id is carried at most once. */
  lemma {:induction false} UniqueIdCountedOnce(locs: seq<LocationInfo>, id: string)
    requires UniqueIds(locs)
    ensures CountId(locs, id) <= 1
    ensures CountId(locs, id) == 1 <==> exists i :: 0 <= i < |locs| && locs[i].id == id
  {
    if locs != [] {
      assert UniqueIds(locs[1..]) by {
        forall i, j | 0 <= i < j < |locs[1..]| ensures locs[1..][i].id != locs[1..][j].id {
          assert locs[1..][i] == locs[i + 1] && locs[1..][j] == locs[j + 1];
        }
      }
      UniqueIdCountedOnce(locs[1..], id);
      if locs[0].id == id {
        assert forall i :: 0 <= i < |locs[1..]| ==> locs[1..][i] == locs[i + 1];
      } else {
        if exists i :: 0 <= i < |locs| && locs[i].id == id {
          var i :| 0 <= i < |locs| && locs[i].id == id;
          assert locs[1..][i - 1].id == id;
        }
      }
    }
  }

  /** With unique ids a like adds exactly one to the list's likes when the id is present, and nothing when it is not. */
  lemma AddLikeOnce(locs: seq<LocationInfo>, id: string)
    requires UniqueIds(locs)
    ensures TotalLikes(AddLikeTo(locs, id)) ==
            TotalLikes(locs) + if exists i :: 0 <= i < |locs| && locs[i].id == id then 1 else 0
  {
    AddLikeTotal(locs, id);
    UniqueIdCountedOnce(locs, id);
  }

  class LocationProvider {
    var locations: seq<LocationInfo>
    var isLoading: bool

    constructor ()
      ensures locations == [] && isLoading
    {
      locations := [];
      isLoading := true;
    }

    /** `loadLocations`: the fetched list on success, the empty list on failure; loading ends either way. */
    method LoadLocations(fetched: Result<seq<LocationInfo>, Rejection>)
      modifies this
      ensures !isLoading
      ensures locations == if fetched.Ok? then fetched.value else []
    {
      isLoading := true;
      match fetched {
        case Ok(data) => locations := data;
        case Err(_) => locations := [];
      }
      isLoading := false;
    }

    /** `refreshLocations` only awaits `loadLocations`. */
    method RefreshLocations(fetched: Result<seq<LocationInfo>, Rejection>)
      modifies this
      ensures !isLoading
      ensures locations == if fetched.Ok? then fetched.value else []
    {
      LoadLocations(fetched);
    }

    /**
     * `addLike`: the local list changes only after the remote like
     * succeeded (it is not optimistic); a failure is rethrown and the list
     * stays as it was.
     */
    method AddLike(id: string, liked: Result<(), Rejection>) returns (result: Result<(), Rejection>)
      modifies this
      ensures result == liked && isLoading == old(isLoading)
      ensures locations == if liked.Ok? then AddLikeTo(old(locations), id) else old(locations)
    {
      result := liked;
      if liked.Ok? {
        locations := AddLikeTo(locations, id);
      }
    }
  }
}
