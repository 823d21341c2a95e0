/** Who may do what in a room, spelled out over its fields, and that the code's own predicates say so. */
module Rights {
  import opened Types
  import opened Chat

  /** An administrator, or the owner of the room. */
  predicate Owns(room: Room, uid: nat) {
    uid in {1, 2} || (uid != 0 && uid == room.ownerId)
  }

  /** An administrator, the owner of the room, or one of its moderators. */
  predicate Moderates(room: Room, uid: nat) {
    uid in {1, 2} || (uid != 0 && (uid == room.ownerId || uid in room.moderators))
  }

  /** Banned by address or by account, and no moderator. */
  predicate Barred(room: Room, uid: nat, ip: string) {
    !Moderates(room, uid) && (ip in room.bannedIps || uid in room.bannedUids)
  }

  /** Nothing but spaces, tabs, line feeds, vertical tabs, form feeds and carriage returns. */
  predicate Blank(text: string) {
    forall i :: 0 <= i < |text| ==> text[i] as int in {9, 10, 11, 12, 13, 32}
  }

  lemma RightsAre(room: Room, uid: nat)
    ensures IsModer(room, uid) <==> Moderates(room, uid)
    ensures IsOwner(room, uid) <==> Owns(room, uid)
    ensures IsAdmin(uid) <==> uid in {1, 2}
  {
  }

  lemma BansAre(room: Room, cl: Client)
    ensures BannedFrom(room, cl) <==> Barred(room, cl.uid, cl.lastIp)
  {
  }

  lemma BlankIs(text: string)
    ensures IsBlank(text) <==> Blank(text)
  {
    forall i | 0 <= i < |text| ensures IsSpace(text[i]) <==> text[i] as int in {9, 10, 11, 12, 13, 32} {
    }
  }

  /** The right or the state that a command asks of its sender. */
  predicate Entitled(room: Room, uid: nat, nick: string, cmd: Command) {
    match cmd
    case Kick(_) | BanNick(_) | BanUid(_) | BanIp(_) | UnbanNick(_) | UnbanUid(_) | UnbanIp(_) => Moderates(room, uid)
    case AddModer(_) | DelModer(_) => Owns(room, uid)
    case Styled(_, _) | PrivateTo(_, _) | PrivateToId(_, _) => nick != ""
    case Listing(LevelUser) => nick != ""
    case Listing(LevelAuth) => uid != 0
    case Listing(LevelModer) => Moderates(room, uid)
    case Listing(LevelOwner) => Owns(room, uid)
    case Listing(LevelAdmin) => uid in {1, 2}
    case _ => true
  }

  lemma EntitledIs(room: Room, uid: nat, m: Member, cmd: Command)
    ensures Allowed(room, uid, m, LevelOf(cmd)) <==> Entitled(room, uid, m.nick, cmd)
  {
    RightsAre(room, uid);
  }
}
