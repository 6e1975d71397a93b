/** The state vectors shared by the environment, the replay memory and the network. */
module States {

  /** A state as the environment reports it: one real per component. */
  type State = seq<real>
}
