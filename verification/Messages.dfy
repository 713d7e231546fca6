/**
 The two values the servers exchange: a command, and the one message type
 that carries every phase of the protocol.

 Both are copied by value wherever the program passes them, so both are
 datatypes here; the byte-level object with its in-place Marshal and
 Unmarshal is in module Wire.
 */
module Messages {

  /** The address every command is built with; no code path ever sets another one. */
  const DEFAULT_IP := "000.000.000.000"

  datatype Command = Command(slot: int, commandId: int, clientIp: string, customerId: int, orderId: int)

  /** A default-constructed command (its slot is left unset by the program; nothing reads it). */
  const NO_COMMAND := Command(0, -1, DEFAULT_IP, -1, -1)

  /**
   phase 1: prepare (1a); 2: promise or reject (1b); 3: accept (2a);
   4: agree or reject (2b); 5: learn; -1: nothing was received.
   */
  datatype PaxosMsg = PaxosMsg(
    phase: int,
    agree: int,
    proposeNumber: int,
    acceptedProposal: int,
    slotNumber: int,
    commandId: int,
    clientIp: string,
    customerId: int,
    orderId: int)
  {
    function SetCommand(c: Command): PaxosMsg {
      this.(slotNumber := c.slot, commandId := c.commandId, clientIp := c.clientIp,
            customerId := c.customerId, orderId := c.orderId)
    }

    function GetCommand(): Command {
      Command(slotNumber, commandId, clientIp, customerId, orderId)
    }
  }

  function NewMsg(phase: int): PaxosMsg {
    PaxosMsg(phase, 0, -1, -1, -1, -1, DEFAULT_IP, -1, -1)
  }

  /** A message carries the command put into it, field by field, and keeps its other fields. */
  lemma CarriesCommand(m: PaxosMsg, c: Command)
    ensures var w := m.SetCommand(c);
            && w.GetCommand() == c
            && w.slotNumber == c.slot && w.commandId == c.commandId && w.clientIp == c.clientIp
            && w.customerId == c.customerId && w.orderId == c.orderId
            && w.phase == m.phase && w.agree == m.agree
            && w.proposeNumber == m.proposeNumber && w.acceptedProposal == m.acceptedProposal
  {
  }

  /** What a stub hands back when the reply could not be read. */
  const NO_REPLY := NewMsg(-1)
}
