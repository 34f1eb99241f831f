/**
 * The battery health indicator: the colour the health LED is set to for a
 * given battery capacity (in percent). A low-battery warning is shown
 * exactly when the colour is red.
 */
module Health {
  import opened Devices

  function HealthColor(capacity: int): (c: Color)
    ensures c == Blue <==> capacity > 95
    ensures c == Green <==> 85 < capacity <= 95
    ensures c == Orange <==> 81 < capacity <= 85
    ensures c == Red <==> capacity <= 81
  {
    if capacity > 95 then Blue
    else if capacity > 85 then Green
    else if capacity > 81 then Orange
    else Red
  }

  /** The order of the health colours, from worst to best. */
  function Rank(c: Color): nat
  {
    match c
    case Red => 0
    case Orange => 1
    case Green => 2
    case Blue => 3
    case _ => 0
  }

  /** More charge never gives a worse colour. */
  lemma HealthMonotone(low: int, high: int)
    requires low <= high
    ensures Rank(HealthColor(low)) <= Rank(HealthColor(high))
  {
  }
}
