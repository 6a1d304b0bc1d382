// Addressing of collective messages (sumi/collective_message.h): which rank a
// message is for at each stage of each wire protocol, and under which action it
// is looked up there.
module WorkMessages {
  import opened Actions
  import opened Protocol

  datatype Wire = Eager | Get | Put

  // NetworkMessage::type_t, as far as collectives see it.
  datatype Stage = SmsgSend | RdmaPayload | SentAck

  class CollectiveWorkMessage {
    const round: nat
    const protocol: Wire
    var domSender: nat
    var domRecver: nat

    constructor (protocol: Wire, domSender: nat, domRecver: nat, round: nat)
      ensures this.protocol == protocol && this.domSender == domSender && this.domRecver == domRecver && this.round == round
    {
      this.protocol, this.domSender, this.domRecver, this.round := protocol, domSender, domRecver, round;
    }

    // reverse
    method Reverse()
      modifies this
      ensures domSender == old(domRecver) && domRecver == old(domSender)
    {
      domSender, domRecver := domRecver, domSender;
    }

    // domTargetRank
    function DomTargetRank(ty: Stage): nat
      reads this
    {
      match ty
      case SmsgSend => domRecver
      case RdmaPayload => domRecver
      case SentAck => domSender
    }

    // The action incomingHeader, dataRecved or dataSent looks up.
    function ActionSought(ty: Stage): Key
      reads this
    {
      match ty
      case SmsgSend => if protocol == Put then Key(Send, round, domSender) else Key(Recv, round, domSender)
      case RdmaPayload => Key(Recv, round, domSender)
      case SentAck => Key(Send, round, domRecver)
    }
  }

  // The header or eager message of channel c, as doSend or doRecv makes it: put
  // headers come from the receiver.
  method FirstMessage(w: Wire, c: Chan) returns (m: CollectiveWorkMessage)
    ensures fresh(m) && m.protocol == w && m.round == c.round
    ensures m.domSender == (if w == Put then c.dst else c.src) && m.domRecver == if w == Put then c.src else c.dst
  {
    if w == Put {
      m := new CollectiveWorkMessage(w, c.dst, c.src, c.round);
    } else {
      m := new CollectiveWorkMessage(w, c.src, c.dst, c.round);
    }
  }

  // nextRoundReadyToPut turns the header round before the payload leaves.
  method ToPayload(m: CollectiveWorkMessage)
    modifies m
    ensures m.domSender == (if m.protocol == Put then old(m.domRecver) else old(m.domSender))
    ensures m.domRecver == (if m.protocol == Put then old(m.domSender) else old(m.domRecver))
  {
    if m.protocol == Put { m.Reverse(); }
  }

  // Every message of channel c finds its rank and its action: the header its
  // home, the payload the receive at c's destination, the acknowledgement the
  // send at c's source.
  method Exchange<E(==,!new)>(cfg: Config<E>, w: Wire, c: Chan) returns (header: (nat, Key), payload: (nat, Key), ack: (nat, Key))
    requires w != Eager ==> (w == Get <==> cfg.useGet)
    ensures if w == Eager then header == (c.dst, RecvKey(c)) else header == (HdrHome(cfg, c), HdrKey(cfg, c))
    ensures payload == (c.dst, RecvKey(c)) && ack == (c.src, SendKey(c))
  {
    var m := FirstMessage(w, c);
    header := (m.DomTargetRank(SmsgSend), m.ActionSought(SmsgSend));
    ToPayload(m);
    payload := (m.DomTargetRank(RdmaPayload), m.ActionSought(RdmaPayload));
    ack := (m.DomTargetRank(SentAck), m.ActionSought(SentAck));
  }
}
