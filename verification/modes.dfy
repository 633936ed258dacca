/** The two user-selected modes the audio controller carries and the map
    controller consults. */
module Modes {

  /** `sortMode`: northbound (the default), southbound, or chronological ("date"). */
  datatype SortMode = Nobo | Sobo | Date

  /** `playMode`: play the list in order, or pick tracks at random. */
  datatype PlayMode = Sequential | Random
}
