/**
 * The animal records of the catalogue, reduced to the fields the explorer's
 * logic reads. Names, model paths, scientific names and traits are display
 * data and are not modelled.
 */
module Animals {
  import opened Options
  import opened Geometry

  /** One authored step of a guided tour: its text and the camera pose it shows. */
  datatype GuidedStep = GuidedStep(
    step: int,
    title: string,
    description: string,
    cameraPosition: Vec3,
    cameraTarget: Vec3)

  datatype Animal = Animal(
    id: string,
    habitat: string,
    diet: string,
    environmentType: Option<string>,
    size: string,
    guidedLearningSteps: Option<seq<GuidedStep>>)
}
