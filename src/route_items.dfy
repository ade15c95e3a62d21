/** The `RouteItem` record the component screens list (`components/ui/HomeScreen.tsx`). */
module RouteItems {
  import opened Wrappers

  datatype Tag = Active | Popular | Upcoming

  datatype ItemType = BusItem | TrainItem | DestinationItem

  datatype RouteItem = RouteItem(
    id: string,
    image: string,
    title: string,
    description: string,
    tag: Tag,
    kind: ItemType,
    route: Option<string>,
    time: Option<string>)
}
