/** Vestige.Engine.Core.DialogDirection: the older system's direction of a speech bubble. */
module DialogDirections {

  datatype DialogDirection = None | Left | Right
}
