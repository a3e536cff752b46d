/**
 * The kinds of message intent a message envelope carries, and their integer
 * ordinals, which are fixed so that they stay stable on the wire and in storage.
 */
module MessageIntents {
  import opened Wrappers

  /** Send: regular point-to-point send; Publish: not a point-to-point send; Reply: a reply. */
  datatype MessageIntent = Send | Publish | Reply

  /** The ordinal the enumeration assigns to each intent. */
  function Encode(intent: MessageIntent): (ordinal: int)
    ensures 1 <= ordinal <= 3
  {
    match intent
    case Send => 1
    case Publish => 2
    case Reply => 3
  }

  /**
   * The intent an ordinal names, if any. An ordinal outside the declared ones
   * (the default 0 of an uninitialised enum field among them) names none.
   */
  function Decode(ordinal: int): (intent: Option<MessageIntent>)
    ensures intent.Some? <==> 1 <= ordinal <= 3
    ensures intent.Some? ==> Encode(intent.value) == ordinal
  {
    if ordinal == 1 then Some(Send)
    else if ordinal == 2 then Some(Publish)
    else if ordinal == 3 then Some(Reply)
    else None
  }

  lemma FixedOrdinals()
    ensures Encode(Send) == 1 && Encode(Publish) == 2 && Encode(Reply) == 3
  {
  }

  lemma EncodeInjective(i: MessageIntent, j: MessageIntent)
    ensures Encode(i) == Encode(j) ==> i == j
  {
  }

  lemma DecodeEncode(intent: MessageIntent)
    ensures Decode(Encode(intent)) == Some(intent)
  {
  }
}
