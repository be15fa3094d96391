/** What joining, leaving and renaming do to the two name indexes, in any state (server/clients.go, room.go). */
module Indexes {
  import opened ServerState

  lemma JoinMembers(s: Server, id: ConnId, to: string, room: string)
    ensures var c := ClientOf(s, id);
            var base := if room == c.room && room != "" then Members(s, room) - {c.username} else Members(s, room);
            Members(JoinRoom(s, id, to), room) == if room == to then base[c.username := id] else base
  {
  }

  lemma RemoveMembers(s: Server, name: string, room: string)
    requires name in s.clients
    ensures Members(RemoveClient(s, name), room)
         == if room == ClientOf(s, s.clients[name]).room && room != "" then Members(s, room) - {name} else Members(s, room)
    ensures RemoveClient(s, name).clients == s.clients - {name}
  {
  }

  lemma RekeyMembers(s: Server, id: ConnId, name: string, room: string)
    requires CanRekey(s, name)
    ensures var c := ClientOf(s, id);
            var t := RenameClient(s, id, c.username, name).0;
            && t.clients == (s.clients - {c.username})[name := id]
            && Members(t, room) == if room == c.room && room != "" && room in s.rooms
                                   then (Members(s, room) - {c.username})[name := id] else Members(s, room)
  {
  }

  lemma JoinFieldsOf(s: Server, id: ConnId, room: string)
    ensures JoinRoom(s, id, room).clients == s.clients
  {
  }
}
