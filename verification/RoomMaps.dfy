/** A hub's map from documents to rooms, as the critical sections of `Register` and `Unregister`
change it (ws-service/internal/hub/hub.go:39-55, 77-90). */
module RoomMaps {

  /** The clients of a room, and the one subscription they share. */
  datatype Room<C(==), S> = Room(members: set<C>, sub: S)

  function Members<K, C, S>(rooms: map<K, Room<C, S>>, k: K): set<C> {
    if k in rooms then rooms[k].members else {}
  }

  /** A room is entered if it is there and opened, with its subscription, if it is not. */
  function AddMember<K, C, S>(rooms: map<K, Room<C, S>>, k: K, c: C, sub: S): map<K, Room<C, S>> {
    if k in rooms then rooms[k := rooms[k].(members := rooms[k].members + {c})]
    else rooms[k := Room({c}, sub)]
  }

  /** A room is removed from the map with its last member. */
  function RemoveMember<K, C, S>(rooms: map<K, Room<C, S>>, k: K, c: C): map<K, Room<C, S>> {
    if k !in rooms then rooms
    else if rooms[k].members - {c} == {} then rooms - {k}
    else rooms[k := rooms[k].(members := rooms[k].members - {c})]
  }
}
