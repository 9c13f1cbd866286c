/** What a client task does with a packet from its socket and with a command from its inbox, as functions. */
module ClientTask {
  import opened Utf8
  import opened Wire
  import opened Packets
  import opened Protocol

  /** `handle_packet`: how a packet from the game changes the player's shared data. */
  function OnPacket(d: Profile, p: Packet): Profile {
    match p.data
    case CostumeData(costume) => d.(costume := costume, loadedSave := true)
    case Game(is2d, scenarioNum, _) =>
      var d1 := d.(is2d := is2d, scenario := scenarioNum, lastGame := Some(p));
      if IsReset(p.data) then StartSpeedrun(d1) else d1
    case Tag(update, isIt, seconds, minutes) =>
      if update == Time then d.(time := (seconds as int) + (minutes as int) * 60) else d.(isSeeking := isIt)
    case Shine(shineId, _) => if d.loadedSave then d.(shineSync := d.shineSync + {shineId}) else d
    case _ => d
  }

  /** Everything but the announcement of a UDP port goes on to the coordinator. */
  predicate Forwards(p: Packet) {
    !p.data.UdpInit?
  }

  /** `handle_command`: a session never writes a packet that bears its own guid. */
  predicate Writes(guid: Guid, p: Packet) {
    p.id != guid
  }

  /** The notice that ends a session. */
  predicate EndsSession(guid: Guid, p: Packet) {
    p.id == guid && p.data.Disconnect?
  }
}
