/**
 The states of a container, shared by the container store, the down detector and the uptime
 computation.
 */
module ContainerStates {

  datatype ContainerState = Running | Exited | Completed | Restarting | Paused | Created | Dead
}
