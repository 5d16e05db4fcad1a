/** The chart-window dropdown: each of its six entries selects a window
    length, in milliseconds, for the chart feed. */
module DelayOption {

  /** Window lengths of the entries "0.1 seconds", "1 second", "1 minute",
      "10 minutes", "30 minutes" and "1 hour", in dropdown order. */
  const Windows: seq<int> := [100, 1000, 60000, 600000, 1800000, 3600000]

  /** The window dropdown_change_delay_event stores for a selected index:
      entries 0 to 4 map to their own length, every other index to the last
      entry ("1 hour"). Every result is a positive multiple of 100 ms. */
  function DelayForOption(option: int): (ms: int)
    ensures ms in Windows
    ensures 0 <= option < |Windows| ==> ms == Windows[option]
    ensures option < 0 || option >= |Windows| ==> ms == Windows[|Windows| - 1]
    ensures ms >= 100 && ms % 100 == 0
  {
    if option == 0 then 100
    else if option == 1 then 1000
    else if option == 2 then 60000
    else if option == 3 then 600000
    else if option == 4 then 1800000
    else 3600000
  }
}
