/**
 * The payment transaction id of main_bot.py:185,
 * `"abt-<chat id>-<unix time>"`, and its reading back.
 */
module Transaction {
  import opened Py
  import opened Text

  /** `f"abt-{chat_id}-{int(time.time())}"`. */
  function MerchantTransId(chat: int, now: nat): (r: string)
    ensures |r| > 4 && r[..4] == "abt-"
  {
    "abt-" + IntToString(chat) + "-" + NatToString(now)
  }

  /** Reading an id back: the chat id runs from after `"abt-"` to the last `-`, the time after it. */
  function ParseMerchantTransId(id: string): Option<(int, nat)> {
    if |id| < 4 || id[..4] != "abt-" then None
    else
      var rest := id[4..];
      match LastIndexOf(rest, '-')
      case None => None
      case Some(k) =>
        match (ParseInt(rest[..k]), ParseNat(rest[k + 1..]))
        case (Some(chat), Some(now)) => Some((chat, now))
        case _ => None
  }

  /** The id names its chat and its time: parsing gives both back (a negative group-chat id included). */
  lemma MerchantTransIdRoundTrip(chat: int, now: nat)
    ensures ParseMerchantTransId(MerchantTransId(chat, now)) == Some((chat, now))
  {
    var c := IntToString(chat);
    var t := NatToString(now);
    var id := MerchantTransId(chat, now);
    var rest := c + "-" + t;
    assert id[4..] == rest;
    assert rest[|c|] == '-';
    assert forall j :: |c| < j < |rest| ==> rest[j] == t[j - |c| - 1];
    var k := LastIndexOf(rest, '-').value;
    assert k == |c|;
    assert rest[..k] == c;
    assert rest[k + 1..] == t;
    IntRoundTrip(chat);
    NatRoundTrip(now);
  }

  /** Two sessions get the same id only for the same chat at the same second. */
  lemma MerchantTransIdInjective(chat1: int, now1: nat, chat2: int, now2: nat)
    requires MerchantTransId(chat1, now1) == MerchantTransId(chat2, now2)
    ensures chat1 == chat2 && now1 == now2
  {
    MerchantTransIdRoundTrip(chat1, now1);
    MerchantTransIdRoundTrip(chat2, now2);
  }
}
