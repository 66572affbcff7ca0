/** The generated default configuration: image repository and tags. */
module Config {
  const DefaultOperatorVersion: string := "latest"
  const DefaultAtlasMapImage: string := "docker.io/atlasmap/atlasmap"
  const DefaultVersion: string := "latest"
}
